// Confirmation of a collapsed battery voltage by distinct consecutive samples
// (src/apps/battery_status_logic.c): what is counted, and what it means over a
// whole history of samples.

module BatteryEvidence {
  import opened Timebase

  const CONFIRM_SAMPLES: nat := 2
  const U8_MAX: nat := 0xFF

  datatype Sample = Sample(valid: bool, sequence: u32, mv: u16, threshold: u16)

  datatype Evidence = Evidence(lastSequence: u32, lastThreshold: u16, low: u8, seen: bool)

  const NO_EVIDENCE := Evidence(0, 0, 0, false)

  function Observe(e: Evidence, s: Sample): Evidence {
    var f := if e.lastThreshold != s.threshold then Evidence(e.lastSequence, s.threshold, 0, false) else e;
    if !s.valid then f.(low := 0, seen := false)
    else if f.seen && f.lastSequence == s.sequence then f
    else
      var low := if s.mv >= s.threshold then 0 else if f.low < U8_MAX then f.low + 1 else f.low;
      Evidence(s.sequence, f.lastThreshold, low, true)
  }

  predicate Confirmed(e: Evidence) {
    e.low >= CONFIRM_SAMPLES
  }

  class CollapseEvidence {
    var lastSequence: u32
    var lastThreshold: u16
    var consecutiveLow: u8
    var sequenceSeen: bool

    function State(): Evidence
      reads this
    {
      Evidence(lastSequence, lastThreshold, consecutiveLow, sequenceSeen)
    }

    constructor ()
      ensures State() == NO_EVIDENCE
    {
      lastSequence, lastThreshold, consecutiveLow, sequenceSeen := 0, 0, 0, false;
    }

    method Update(s: Sample) returns (confirmed: bool)
      modifies this
      ensures State() == Observe(old(State()), s)
      ensures confirmed <==> Confirmed(State())
    {
      if lastThreshold != s.threshold {
        lastThreshold := s.threshold;
        consecutiveLow := 0;
        sequenceSeen := false;
      }
      if !s.valid {
        consecutiveLow := 0;
        sequenceSeen := false;
        return false;
      }
      if sequenceSeen && lastSequence == s.sequence {
        return consecutiveLow >= CONFIRM_SAMPLES;
      }
      sequenceSeen := true;
      lastSequence := s.sequence;
      if s.mv < s.threshold {
        if consecutiveLow < U8_MAX {
          consecutiveLow := consecutiveLow + 1;
        }
      } else {
        consecutiveLow := 0;
      }
      confirmed := consecutiveLow >= CONFIRM_SAMPLES;
    }
  }

  // --- What a history of samples says ---

  function Last<T>(s: seq<T>): T
    requires s != []
  {
    s[|s| - 1]
  }

  function Init<T>(s: seq<T>): (r: seq<T>)
    requires s != []
    ensures |r| == |s| - 1
  {
    s[..|s| - 1]
  }

  // Valid samples qualified against one threshold.
  predicate Comparable(s: seq<Sample>) {
    forall i | 0 <= i < |s| :: s[i].valid && s[i].threshold == s[|s| - 1].threshold
  }

  // The samples since the last invalid one or change of threshold.
  function Recent(h: seq<Sample>): (r: seq<Sample>)
    ensures r != [] <==> h != [] && Last(h).valid
    ensures r != [] ==> Last(r) == Last(h)
  {
    if h == [] || !Last(h).valid then []
    else if Joins(h) then Recent(Init(h)) + [Last(h)]
    else [Last(h)]
  }

  predicate Joins(h: seq<Sample>)
    requires h != []
  {
    && Last(h).valid
    && Init(h) != [] && Last(Init(h)).valid && Last(Init(h)).threshold == Last(h).threshold
  }

  function End<T>(s: seq<T>, n: nat): (r: seq<T>)
    requires n <= |s|
    ensures |r| == n
  {
    s[|s| - n..]
  }

  lemma EndGrows(h: seq<Sample>, n: nat)
    requires n < |h|
    ensures End(h, n + 1) == End(Init(h), n) + [Last(h)]
  {}

  lemma ComparableGrows(r: seq<Sample>, s: Sample)
    requires r != [] && s.valid && Last(r).threshold == s.threshold
    ensures Comparable(r + [s]) <==> Comparable(r)
  {
    var t := r + [s];
    assert forall i | 0 <= i < |r| :: t[i] == r[i];
    if !Comparable(r) {
      var i :| 0 <= i < |r| && !(r[i].valid && r[i].threshold == Last(r).threshold);
      assert t[i] == r[i];
    }
  }

  predicate LongestComparableEnd(h: seq<Sample>, r: seq<Sample>) {
    && |r| <= |h| && End(h, |r|) == r && Comparable(r)
    && (|r| < |h| ==> !Comparable(End(h, |r| + 1)))
  }

  // That is the longest end of the history whose samples can be combined.
  lemma {:induction false} RecentMeaning(h: seq<Sample>)
    ensures LongestComparableEnd(h, Recent(h))
  {
    if h == [] || !Last(h).valid {
      assert h != [] ==> End(h, 1) == [Last(h)];
    } else if Joins(h) {
      RecentMeaning(Init(h));
      RecentJoins(h, Recent(Init(h)));
    } else if |h| > 1 {
      var two := End(h, 2);
      assert two[0] == Last(Init(h)) && two[1] == Last(h);
    }
  }

  lemma RecentJoins(h: seq<Sample>, r: seq<Sample>)
    requires h != [] && Joins(h) && r != [] && LongestComparableEnd(Init(h), r)
    ensures LongestComparableEnd(h, r + [Last(h)])
  {
    EndGrows(h, |r|);
    assert Last(r) == Last(Init(h));
    ComparableGrows(r, Last(h));
    if |r| + 1 < |h| {
      EndGrows(h, |r| + 1);
      ComparableGrows(End(Init(h), |r| + 1), Last(h));
    }
  }

  // Adjacent repeats of a sequence number dropped, the first of each kept.
  function Distinct(s: seq<Sample>): seq<Sample> {
    if |s| <= 1 then s
    else if Last(s).sequence == Last(Init(s)).sequence then Distinct(Init(s))
    else Distinct(Init(s)) + [Last(s)]
  }

  // How many samples at the end are below their threshold.
  function TrailingLow(s: seq<Sample>): (n: nat)
    ensures n <= |s|
    ensures forall i | |s| - n <= i < |s| :: s[i].mv < s[i].threshold
    ensures n < |s| ==> s[|s| - n - 1].mv >= s[|s| - n - 1].threshold
  {
    if s == [] || Last(s).mv >= Last(s).threshold then 0 else TrailingLow(Init(s)) + 1
  }

  function LowStreak(h: seq<Sample>): nat {
    TrailingLow(Distinct(Recent(h)))
  }

  function Observed(h: seq<Sample>): Evidence {
    if h == [] then NO_EVIDENCE else Observe(Observed(Init(h)), Last(h))
  }

  predicate Reflects(e: Evidence, h: seq<Sample>) {
    && (h == [] ==> e == NO_EVIDENCE)
    && (h != [] ==> e.lastThreshold == Last(h).threshold)
    && (e.seen <==> Recent(h) != [])
    && (e.seen ==> e.lastSequence == Last(Recent(h)).sequence)
    && e.low == (if LowStreak(h) < U8_MAX then LowStreak(h) else U8_MAX)
  }

  // One more sample that can be combined with those before it.
  lemma StreakGrows(r: seq<Sample>, s: Sample)
    requires r != []
    ensures TrailingLow(Distinct(r + [s])) ==
      if Last(r).sequence == s.sequence then TrailingLow(Distinct(r))
      else if s.mv < s.threshold then TrailingLow(Distinct(r)) + 1 else 0
  {
    var d := Distinct(r) + [s];
    assert Init(r + [s]) == r && Last(r + [s]) == s;
    assert Init(d) == Distinct(r) && Last(d) == s;
  }

  lemma StreakStarts(s: Sample)
    ensures TrailingLow(Distinct([s])) == if s.mv < s.threshold then 1 else 0
  {
    assert Init([s]) == [];
  }

  lemma StreakStep(h: seq<Sample>)
    requires h != []
    ensures LowStreak(h) ==
      if !Last(h).valid then 0
      else if Joins(h) && Last(Init(h)).sequence == Last(h).sequence then LowStreak(Init(h))
      else if Last(h).mv >= Last(h).threshold then 0
      else if Joins(h) then LowStreak(Init(h)) + 1
      else 1
  {
    if Joins(h) {
      StreakGrows(Recent(Init(h)), Last(h));
    } else {
      StreakStarts(Last(h));
    }
  }

  lemma ObserveReflects(e: Evidence, h: seq<Sample>)
    requires h != [] && Reflects(e, Init(h))
    ensures Reflects(Observe(e, Last(h)), h)
  {
    StreakStep(h);
    var n := LowStreak(Init(h));
    assert Joins(h) ==> e.seen && e.lastSequence == Last(Init(h)).sequence;
    assert e.lastThreshold == Last(h).threshold && e.seen && Last(h).valid ==> Joins(h);
  }

  lemma {:induction false} ObservedReflects(h: seq<Sample>)
    ensures Reflects(Observed(h), h)
  {
    if h != [] {
      ObservedReflects(Init(h));
      ObserveReflects(Observed(Init(h)), h);
    }
  }

  // The answer is a fact about the history alone, whatever its length.
  lemma {:induction false} ConfirmedMeaning(h: seq<Sample>)
    ensures Confirmed(Observed(h)) <==> LowStreak(h) >= CONFIRM_SAMPLES
    ensures Observed(h).low == if LowStreak(h) < U8_MAX then LowStreak(h) else U8_MAX
  {
    ObservedReflects(h);
  }

  // Polling the same cached sample again changes nothing.
  lemma RepollIsIdle(h: seq<Sample>)
    requires h != []
    ensures Observed(h + [Last(h)]) == Observed(h)
  {
    assert Init(h + [Last(h)]) == h;
  }
}
