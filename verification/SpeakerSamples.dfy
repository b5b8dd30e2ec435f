/** The capped collection of each speaker's samples. */
module SpeakerSamples {
  import opened Basics
  import opened Wav
  import opened MergeTurns

  function Clamp(x: int, hi: nat): nat { if x < 0 then 0 else if x > hi then hi else x }

  /** The samples of a turn that exist. */
  function Heard(samples: seq<Sample>, t: Turn): seq<Sample> {
    var start, end := Clamp(t.start, |samples|), Clamp(t.end, |samples|);
    if start < end then samples[start..end] else []
  }

  /** Everything a speaker says, turn after turn. */
  function Speech(samples: seq<Sample>, turns: seq<Turn>, s: Speaker): seq<Sample> {
    if |turns| == 0 then []
    else Speech(samples, Front(turns), s) + if Last(turns).speaker == s then Heard(samples, Last(turns)) else []
  }

  function Capped(speech: seq<Sample>, limit: int): seq<Sample> {
    if limit <= 0 then [] else if |speech| > limit then speech[..limit] else speech
  }

  function Collected(m: map<Speaker, seq<Sample>>, s: Speaker): seq<Sample> { if s in m then m[s] else [] }

  /** Adding one turn to what is already capped. */
  lemma CapMore(speech: seq<Sample>, more: seq<Sample>, limit: int)
    ensures var now := Capped(speech, limit); Capped(speech + more, limit) == now + Room(|now|, more, limit)
  {
    if limit > 0 {
      var remaining := limit - |speech|;
      if |speech| > limit {
        assert (speech + more)[..limit] == speech[..limit];
      } else if |more| > remaining {
        assert (speech + more)[..limit] == speech + more[..remaining];
      }
    }
  }

  /** What is left of a turn's samples when `have` have been collected. */
  function Room(have: nat, more: seq<Sample>, limit: int): seq<Sample> {
    if limit - have <= 0 then [] else if |more| > limit - have then more[..limit - have] else more
  }

  lemma RoomSlice(samples: seq<Sample>, start: nat, end: nat, have: nat, limit: int)
    requires start <= end <= |samples|
    ensures var remaining := limit - have;
            Room(have, samples[start..end], limit) ==
            if remaining <= 0 then [] else if end - start > remaining then samples[start..start+remaining]
              else samples[start..end]
  {
    var more, remaining := samples[start..end], limit - have;
    if 0 < remaining < end - start { assert more[..remaining] == samples[start..start+remaining]; }
  }

  /** The body of the loop. */
  method TakeTurn(samples: seq<Sample>, turn: Turn, limit: int, result: map<Speaker, seq<Sample>>)
    returns (r: map<Speaker, seq<Sample>>)
    ensures forall s: Speaker :: s != turn.speaker ==> Collected(r, s) == Collected(result, s)
    ensures var have := Collected(result, turn.speaker);
            Collected(r, turn.speaker) == have + Room(|have|, Heard(samples, turn), limit)
    ensures (forall s: Speaker :: s in result ==> |result[s]| > 0) ==> forall s: Speaker :: s in r ==> |r[s]| > 0
  {
    var have := if turn.speaker in result then result[turn.speaker] else [];
    var start: nat := Clamp(turn.start, |samples|);
    var end: nat := Clamp(turn.end, |samples|);
    if end < start { end := start; }
    ghost var more := Heard(samples, turn);
    assert more == samples[start..end];
    RoomSlice(samples, start, end, |have|, limit);
    var remaining := limit - |have|;
    if remaining <= 0 || start == end {
      assert have + [] == have;
      return result;
    }
    if end - start > remaining {
      end := start + remaining;
    }
    r := result[turn.speaker := have + samples[start..end]];
  }

  /** Every speaker's samples are the first `limit` of what the speaker says, and exactly the
      speakers of whom something is left have an entry. */
  method CollectSpeakerSamples(samples: seq<Sample>, turns: seq<Turn>, limit: int)
    returns (result: map<Speaker, seq<Sample>>)
    ensures forall s: Speaker :: Collected(result, s) == Capped(Speech(samples, turns, s), limit)
    ensures forall s: Speaker :: s in result ==> |result[s]| > 0
  {
    result := map[];
    for i := 0 to |turns|
      invariant forall s: Speaker :: Collected(result, s) == Capped(Speech(samples, turns[..i], s), limit)
      invariant forall s: Speaker :: s in result ==> |result[s]| > 0
    {
      ghost var before := result;
      result := TakeTurn(samples, turns[i], limit, result);
      forall s: Speaker ensures Collected(result, s) == Capped(Speech(samples, turns[..i+1], s), limit) {
        assert Collected(before, s) == Capped(Speech(samples, turns[..i], s), limit);
        SpeechNext(samples, turns, i, s);
        if s == turns[i].speaker {
          CapMore(Speech(samples, turns[..i], s), Heard(samples, turns[i]), limit);
        } else {
          assert Speech(samples, turns[..i], s) + [] == Speech(samples, turns[..i], s);
        }
      }
    }
    assert turns[..|turns|] == turns;
  }

  lemma SpeechNext(samples: seq<Sample>, turns: seq<Turn>, i: nat, s: Speaker)
    requires i < |turns|
    ensures Speech(samples, turns[..i+1], s) ==
            Speech(samples, turns[..i], s) + if turns[i].speaker == s then Heard(samples, turns[i]) else []
  {
    assert Front(turns[..i+1]) == turns[..i];
  }
}
