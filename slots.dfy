/**
 * The working-hours slot search: candidate starts run from an opening
 * instant in steps of 30 minutes for as long as a slot of the asked length
 * still ends by the closing instant, and a candidate is kept when nothing
 * clashes with it. Instants are wall-clock readings in microseconds; the
 * search fails as a whole (Python's OverflowError, or a TypeError raised
 * while comparing) when a step leaves the datetime range or a clash test
 * raises.
 */
module Slots {
  import opened Text
  import opened Chrono

  /** `timedelta(minutes=30)`. */
  const StepMicros: int := 30 * MinuteMicros

  /** `p` in front of a result that may have failed. */
  function Prefixed(p: seq<int>, r: Option<seq<int>>): (q: Option<seq<int>>)
    ensures q.Some? <==> r.Some?
    ensures q.Some? ==> q.value == p + r.value
  {
    match r
    case None => None
    case Some(s) => Some(p + s)
  }

  lemma PrefixedTwice(p: seq<int>, q: seq<int>, r: Option<seq<int>>)
    ensures Prefixed(p, Prefixed(q, r)) == Prefixed(p + q, r)
  {
    if r.Some? {
      assert p + (q + r.value) == (p + q) + r.value;
    }
  }

  /**
   * The kept starts from `cur` on, for slots `dur` long ending by `end`.
   * `clash(s, e)` says whether something overlaps the slot [s, e), None
   * when finding out raises.
   */
  function Scan(cur: int, dur: int, end: int, clash: (int, int) -> Option<bool>): (r: Option<seq<int>>)
    requires InRange(cur)
    ensures r.Some? ==> forall s :: s in r.value ==> cur <= s && s + dur <= end && InRange(s) && InRange(s + dur)
    decreases end - dur - cur
  {
    if !InRange(cur + dur) then None
    else if cur + dur > end then Some([])
    else
      match clash(cur, cur + dur)
      case None => None
      case Some(busy) =>
        if !InRange(cur + StepMicros) then None
        else Prefixed(if busy then [] else [cur], Scan(cur + StepMicros, dur, end, clash))
  }

  /** One step of the candidate loop: the start is kept unless it clashes, and the scan goes on from the next candidate. */
  lemma ScanAdvance(whole: Option<seq<int>>, starts: seq<int>, cur: int, dur: int, end: int,
                    clash: (int, int) -> Option<bool>, busy: bool)
    requires InRange(cur) && InRange(cur + dur) && cur + dur <= end && InRange(cur + StepMicros)
    requires clash(cur, cur + dur) == Some(busy)
    requires whole == Prefixed(starts, Scan(cur, dur, end, clash))
    ensures busy ==> whole == Prefixed(starts, Scan(cur + StepMicros, dur, end, clash))
    ensures !busy ==> whole == Prefixed(starts + [cur], Scan(cur + StepMicros, dur, end, clash))
  {
    var rest := Scan(cur + StepMicros, dur, end, clash);
    PrefixedTwice(starts, if busy then [] else [cur], rest);
    if busy {
      assert starts + [] == starts;
    }
  }

  /** The candidate loop stops with what it kept once a slot would end past the closing instant. */
  lemma ScanStop(whole: Option<seq<int>>, starts: seq<int>, cur: int, dur: int, end: int, clash: (int, int) -> Option<bool>)
    requires InRange(cur) && InRange(cur + dur) && cur + dur > end
    requires whole == Prefixed(starts, Scan(cur, dur, end, clash))
    ensures whole == Some(starts)
  {
    assert starts + [] == starts;
  }

  /** `s` is one of the candidate starts counted from `first`. */
  predicate Candidate(s: int, first: int) {
    first <= s && (s - first) % StepMicros == 0
  }

  lemma CandidateNext(s: int, first: int)
    requires Candidate(s, first) && s != first
    ensures Candidate(s, first + StepMicros)
  {
    var k := (s - first) / StepMicros;
    assert s - first == k * StepMicros;
    assert k >= 1;
    assert s - (first + StepMicros) == (k - 1) * StepMicros;
  }

  lemma CandidateStep(s: int, first: int)
    requires Candidate(s, first + StepMicros)
    ensures Candidate(s, first)
  {
    var k := (s - first - StepMicros) / StepMicros;
    assert s - first - StepMicros == k * StepMicros;
    assert s - first == (k + 1) * StepMicros;
  }

  /** A start is kept exactly when it is a candidate whose slot ends in time and nothing clashes with. */
  lemma ScanExact(cur: int, dur: int, end: int, clash: (int, int) -> Option<bool>, s: int)
    requires InRange(cur) && Scan(cur, dur, end, clash).Some?
    ensures s in Scan(cur, dur, end, clash).value <==> Candidate(s, cur) && s + dur <= end && clash(s, s + dur) == Some(false)
  {
    ScanSound(cur, dur, end, clash);
    if Candidate(s, cur) && s + dur <= end && clash(s, s + dur) == Some(false) {
      ScanComplete(cur, dur, end, clash, s);
    }
  }

  /** Every kept start is a candidate whose slot nothing clashes with. */
  lemma {:induction false} ScanSound(cur: int, dur: int, end: int, clash: (int, int) -> Option<bool>)
    requires InRange(cur) && Scan(cur, dur, end, clash).Some?
    ensures forall s :: s in Scan(cur, dur, end, clash).value ==> Candidate(s, cur) && clash(s, s + dur) == Some(false)
    decreases end - dur - cur
  {
    if InRange(cur + dur) && cur + dur <= end {
      var next := cur + StepMicros;
      ScanSound(next, dur, end, clash);
      forall s | s in Scan(next, dur, end, clash).value ensures Candidate(s, cur) {
        CandidateStep(s, cur);
      }
    }
  }

  /** Every candidate that fits before `end` and that nothing clashes with is kept. */
  lemma {:induction false} ScanComplete(cur: int, dur: int, end: int, clash: (int, int) -> Option<bool>, s: int)
    requires InRange(cur) && Scan(cur, dur, end, clash).Some?
    requires Candidate(s, cur) && s + dur <= end && clash(s, s + dur) == Some(false)
    ensures s in Scan(cur, dur, end, clash).value
    decreases end - dur - cur
  {
    if s != cur {
      CandidateNext(s, cur);
      ScanComplete(cur + StepMicros, dur, end, clash, s);
    }
  }

  /** The kept starts come out in ascending order. */
  lemma {:induction false} ScanAscending(cur: int, dur: int, end: int, clash: (int, int) -> Option<bool>)
    requires InRange(cur) && Scan(cur, dur, end, clash).Some?
    ensures forall i, j :: 0 <= i < j < |Scan(cur, dur, end, clash).value| ==>
      Scan(cur, dur, end, clash).value[i] < Scan(cur, dur, end, clash).value[j]
    decreases end - dur - cur
  {
    if InRange(cur + dur) && cur + dur <= end {
      ScanAscending(cur + StepMicros, dur, end, clash);
      if clash(cur, cur + dur) == Some(false) {
        ConsAscending(cur, Scan(cur + StepMicros, dur, end, clash).value);
      }
    }
  }

  /** A start below every later one, in front of an ascending run, keeps it ascending. */
  lemma ConsAscending(x: int, rest: seq<int>)
    requires forall s :: s in rest ==> x < s
    requires forall i, j :: 0 <= i < j < |rest| ==> rest[i] < rest[j]
    ensures forall i, j :: 0 <= i < j < |[x] + rest| ==> ([x] + rest)[i] < ([x] + rest)[j]
  {
    var r := [x] + rest;
    forall i, j | 0 <= i < j < |r| ensures r[i] < r[j] {
      if i > 0 {
        assert r[i] == rest[i - 1] && r[j] == rest[j - 1];
      } else {
        assert r[j] == rest[j - 1] && rest[j - 1] in rest;
      }
    }
  }

  /**
   * The search only fails through its clash test: with a test that never
   * raises, a slot length that is not negative and a closing instant a
   * step short of the end of the range, it succeeds.
   */
  lemma {:induction false} ScanDefined(cur: int, dur: int, end: int, clash: (int, int) -> Option<bool>)
    requires InRange(cur) && 0 <= dur
    requires cur + dur < MaxOrdinal * DayMicros && end + StepMicros < MaxOrdinal * DayMicros
    requires forall s, e :: clash(s, e).Some?
    ensures Scan(cur, dur, end, clash).Some?
    decreases end - dur - cur
  {
    if cur + dur <= end {
      ScanDefined(cur + StepMicros, dur, end, clash);
    }
  }
}
