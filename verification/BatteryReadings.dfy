// What battery supervision does, told by the readings alone: which voltages in which
// polls confirm the floor, arm a countdown and warn.

module BatteryReadings {
  import opened Timebase
  import opened BatteryEvidence
  import opened BatteryEndpoint
  import opened BatteryRuntime
  import opened BatteryRuns
  import opened BatterySafety

  // --- The floor ---

  // A poll whose sample says something of the battery alone.
  predicate Usable(p: Pass) {
    p.r.valid && !p.r.recovering && !p.shown.PoweredOff?
  }

  predicate SameSituation(p: Pass, q: Pass) {
    Usable(p) && Usable(q) && p.r.callActive == q.r.callActive
  }

  // The polls since the last unusable one or the last start or end of a call.
  function Stretch(ps: seq<Pass>): (r: seq<Pass>)
    ensures r != [] <==> ps != [] && Usable(Last(ps))
    ensures r != [] ==> Last(r) == Last(ps)
  {
    if ps == [] || !Usable(Last(ps)) then []
    else if |ps| > 1 && SameSituation(Last(Init(ps)), Last(ps)) then Stretch(Init(ps)) + [Last(ps)]
    else [Last(ps)]
  }

  // The polls that brought a sample not seen in the poll before.
  function News(ps: seq<Pass>): seq<Pass> {
    if |ps| <= 1 then ps
    else if Last(ps).r.sequence == Last(Init(ps)).r.sequence then News(Init(ps))
    else News(Init(ps)) + [Last(ps)]
  }

  // Too little under the load of a call, or without it.
  predicate Low(p: Pass) {
    p.r.mv < if p.r.callActive then 1800 else 2100
  }

  predicate FloorReached(ps: seq<Pass>) {
    var n := News(Stretch(ps));
    |n| >= 2 && Low(n[|n| - 1]) && Low(n[|n| - 2])
  }

  function SampleAt(p: Pass): Sample {
    SampleOf(p.shown.PoweredOff?, p.r)
  }

  lemma SampleFacts(p: Pass)
    ensures SampleAt(p).valid == Usable(p) && SampleAt(p).sequence == p.r.sequence
    ensures (SampleAt(p).mv < SampleAt(p).threshold) == Low(p)
    ensures forall q :: SampleAt(p).threshold == SampleAt(q).threshold <==> p.r.callActive == q.r.callActive
  {}

  lemma {:induction false} SamplesFacts(ps: seq<Pass>)
    ensures |SamplesOf(ps)| == |ps|
    ensures ps != [] ==>
      Last(SamplesOf(ps)) == SampleAt(Last(ps)) && BatteryEvidence.Init(SamplesOf(ps)) == SamplesOf(Init(ps))
  {
    if ps != [] {
      SamplesFacts(Init(ps));
    }
  }

  lemma SamplesGrow(ps: seq<Pass>, p: Pass)
    ensures SamplesOf(ps + [p]) == SamplesOf(ps) + [SampleAt(p)]
  {
    assert (ps + [p])[..|ps|] == ps;
  }

  lemma {:induction false} StretchSamples(ps: seq<Pass>)
    ensures Recent(SamplesOf(ps)) == SamplesOf(Stretch(ps))
  {
    SamplesFacts(ps);
    if ps != [] {
      var p := Last(ps);
      SamplesFacts(Init(ps));
      SampleFacts(p);
      SamplesGrow([], p);
      assert [] + [p] == [p];
      if |ps| > 1 {
        SampleFacts(Last(Init(ps)));
        StretchSamples(Init(ps));
        SamplesGrow(Stretch(Init(ps)), p);
      }
    }
  }

  lemma {:induction false} NewsSamples(ps: seq<Pass>)
    ensures Distinct(SamplesOf(ps)) == SamplesOf(News(ps))
  {
    SamplesFacts(ps);
    if |ps| > 1 {
      SamplesFacts(Init(ps));
      SampleFacts(Last(ps));
      SampleFacts(Last(Init(ps)));
      NewsSamples(Init(ps));
      SamplesGrow(News(Init(ps)), Last(ps));
    }
  }

  lemma TwoLow(ps: seq<Pass>)
    ensures TrailingLow(SamplesOf(ps)) >= 2 <==> |ps| >= 2 && Low(ps[|ps| - 1]) && Low(ps[|ps| - 2])
  {
    SamplesFacts(ps);
    if ps != [] {
      SampleFacts(Last(ps));
      SamplesFacts(Init(ps));
      if |ps| > 1 {
        SampleFacts(Last(Init(ps)));
      }
    }
  }

  lemma StreakSamples(ps: seq<Pass>)
    ensures LowStreak(SamplesOf(ps)) == TrailingLow(SamplesOf(News(Stretch(ps))))
  {
    StretchSamples(ps);
    NewsSamples(Stretch(ps));
  }

  lemma StreakByReadings(ps: seq<Pass>)
    ensures LowStreak(SamplesOf(ps)) >= 2 <==> FloorReached(ps)
  {
    StreakSamples(ps);
    TwoLow(News(Stretch(ps)));
  }

  // After any run of polls the floor is confirmed exactly when the usable samples since
  // the last unusable one, or since a call last began or ended, adjacent repeats dropped,
  // end in two below 1800 mV in a call, or two below 2100 mV outside one.
  lemma FloorByReadings(t: seq<Battery>, ps: seq<Pass>, k: nat)
    requires IsRun(t, ps) && k <= |ps| && t[0].evidence == NO_EVIDENCE
    ensures Confirmed(t[k].evidence) <==> FloorReached(ps[..k])
  {
    FloorMeaning(t, ps, k);
    StreakByReadings(ps[..k]);
  }

  // --- What arms a countdown ---

  predicate Trusted(p: Pass) {
    p.r.chargeAnchored && !p.r.exhausted
  }

  predicate RailDown(p: Pass) {
    (p.r.valid || p.r.charger) && p.r.railFailed && p.r.railMarginal
  }

  predicate ShowsEmpty(p: Pass) {
    p.r.valid && p.r.gaugeEmpty
  }

  // floor says the floor is reached, sagging that a sag is being held.
  predicate EndsRun(p: Pass, floor: bool, sagging: bool) {
    || floor
    || (!Trusted(p) && (RailDown(p) || ShowsEmpty(p)))
    || (p.r.exhausted && p.r.valid && p.r.gaugeLow && !p.r.callActive)
    || (Trusted(p) && !p.r.callActive && ShowsEmpty(p) && !RailDown(p) && !sagging)
  }

  lemma DecisionByReadings(b: Battery, p: Pass)
    requires !Rescues(p) && b.emptyOffMs == 0
    ensures var d := EndpointStep(b.endpoint, SignsFor(b, p)).1;
      var floor := Confirmed(Observe(b.evidence, SampleAt(p)));
      && (d.shutdown <==> EndsRun(p, floor, b.endpoint.sagLatched))
      && (d.learnEmpty <==> d.shutdown && !(p.r.callActive && Trusted(p)))
  {}

  predicate Starts(b: Battery, p: Pass, c: Battery, floor: bool) {
    && (Arms(b, c) <==> b.emptyOffMs == 0 && !Rescues(p) && EndsRun(p, floor, b.endpoint.sagLatched))
    && Instants(c.log, Offers) == Instants(b.log, Offers) +
         if Arms(b, c) && !(p.r.callActive && Trusted(p)) then [p.r.at] else []
  }

  lemma PollStarts(b: Battery, p: Pass)
    ensures Starts(b, p, After(b, p), Confirmed(After(b, p).evidence))
  {
    PollObserves(b, p);
    PollSupervised(b, p);
    if !Rescues(p) && b.emptyOffMs == 0 {
      DecisionByReadings(b, p);
    }
  }

  // Over any run a poll arms a countdown exactly when none runs, nothing rescues, and
  // its readings end the run; and only then, and not in a call with trusted charge, it
  // offers EMPTY to the learner.
  lemma ArmsExactly(t: seq<Battery>, ps: seq<Pass>, k: nat)
    requires IsRun(t, ps) && k < |ps| && t[0].evidence == NO_EVIDENCE
    ensures Starts(t[k], ps[k], t[k + 1], FloorReached(ps[..k + 1]))
  {
    PollStarts(t[k], ps[k]);
    FloorByReadings(t, ps, k + 1);
  }

  // --- A sag being held ---

  predicate Sags(p: Pass) {
    Trusted(p) && (RailDown(p) || (p.r.callActive && ShowsEmpty(p)))
  }

  predicate Recovers(p: Pass) {
    p.r.valid && !p.r.gaugeEmpty && !(p.r.railFailed && p.r.railMarginal)
  }

  // Poll j saw the sag, and none up to poll k has ended it.
  predicate HeldSince(t: seq<Battery>, ps: seq<Pass>, j: nat, k: nat)
    requires |t| == |ps| + 1 && j < k <= |ps|
  {
    && t[j].emptyOffMs == 0 && !Rescues(ps[j]) && Sags(ps[j])
    && forall i | j < i < k :: !Rescues(ps[i]) && (t[i].emptyOffMs == 0 ==> !Recovers(ps[i]))
  }

  lemma LatchStep(b: Battery, p: Pass)
    ensures After(b, p).endpoint.sagLatched <==>
      !Rescues(p) && if b.emptyOffMs != 0 then b.endpoint.sagLatched
                     else Sags(p) || (b.endpoint.sagLatched && !Recovers(p))
  {
    PollSupervised(b, p);
  }

  // Some poll saw a sag that none up to poll k has ended.
  ghost predicate HeldSome(t: seq<Battery>, ps: seq<Pass>, k: nat)
    requires |t| == |ps| + 1 && k <= |ps|
  {
    exists j | 0 <= j < k :: HeldSince(t, ps, j, k)
  }

  lemma HeldStep(t: seq<Battery>, ps: seq<Pass>, n: nat)
    requires |t| == |ps| + 1 && n < |ps|
    ensures HeldSome(t, ps, n + 1) <==>
      && !Rescues(ps[n])
      && if t[n].emptyOffMs != 0 then HeldSome(t, ps, n)
         else Sags(ps[n]) || (HeldSome(t, ps, n) && !Recovers(ps[n]))
  {
    if HeldSome(t, ps, n) {
      var j :| 0 <= j < n && HeldSince(t, ps, j, n);
      assert !Rescues(ps[n]) && (t[n].emptyOffMs == 0 ==> !Recovers(ps[n])) ==> HeldSince(t, ps, j, n + 1);
    }
    assert t[n].emptyOffMs == 0 && !Rescues(ps[n]) && Sags(ps[n]) ==> HeldSince(t, ps, n, n + 1);
    if HeldSome(t, ps, n + 1) {
      var j :| 0 <= j < n + 1 && HeldSince(t, ps, j, n + 1);
      assert j < n ==> HeldSince(t, ps, j, n);
    }
  }

  // A sag is held exactly when some poll saw it and none since has shown it over, no
  // charging and no power-off came, and polls during a countdown do not matter.
  lemma {:induction false} SagByReadings(t: seq<Battery>, ps: seq<Pass>, k: nat)
    requires IsRun(t, ps) && k <= |ps| && !t[0].endpoint.sagLatched
    ensures t[k].endpoint.sagLatched <==> HeldSome(t, ps, k)
  {
    if k > 0 {
      var n := k - 1;
      SagByReadings(t, ps, n);
      assert t[n + 1] == After(t[n], ps[n]);
      LatchStep(t[n], ps[n]);
      HeldStep(t, ps, n);
    }
  }

  // --- What voltages do ---

  lemma {:induction false} NewsFrom(ps: seq<Pass>)
    ensures forall p | p in News(ps) :: p in ps
  {
    if |ps| > 1 {
      NewsFrom(Init(ps));
    }
  }

  lemma PrefixEnd(ps: seq<Pass>, k: nat)
    requires 0 < k <= |ps|
    ensures Last(ps[..k]) == ps[k - 1] && Init(ps[..k]) == ps[..k - 1]
  {}

  // Polls i..k are those of one call so far.
  predicate OneCall(ps: seq<Pass>, i: nat, k: nat)
    requires i < k <= |ps|
  {
    (forall j | i <= j < k :: ps[j].r.callActive) && (i > 0 ==> !ps[i - 1].r.callActive)
  }

  lemma {:induction false} StretchInCall(ps: seq<Pass>, i: nat, k: nat)
    requires i < k <= |ps| && OneCall(ps, i, k)
    requires forall j | i <= j < k && Usable(ps[j]) :: ps[j].r.mv >= 1800
    ensures forall p | p in Stretch(ps[..k]) :: !Low(p)
  {
    PrefixEnd(ps, k);
    if i + 1 < k {
      StretchInCall(ps, i, k - 1);
    } else if i > 0 {
      PrefixEnd(ps, i);
    }
  }

  lemma NotReachedInCall(ps: seq<Pass>, i: nat, k: nat)
    requires i < k <= |ps| && OneCall(ps, i, k)
    requires forall j | i <= j < k && Usable(ps[j]) :: ps[j].r.mv >= 1800
    ensures !FloorReached(ps[..k])
  {
    StretchInCall(ps, i, k);
    NewsFrom(Stretch(ps[..k]));
  }

  // While every usable sample of a call shows 1800 mV or more, no poll of it arms a
  // countdown as long as the charge is trusted, whatever the gauge and the rails say
  // and whatever came before the call.
  lemma CallSagNeverArms(t: seq<Battery>, ps: seq<Pass>, i: nat, k: nat)
    requires IsRun(t, ps) && i <= k < |ps| && t[0].evidence == NO_EVIDENCE
    requires OneCall(ps, i, k + 1) && Trusted(ps[k])
    requires forall j | i <= j <= k && Usable(ps[j]) :: ps[j].r.mv >= 1800
    ensures !Arms(t[k], t[k + 1])
  {
    NotReachedInCall(ps, i, k + 1);
    ArmsExactly(t, ps, k);
    CallStartsNothing(t[k], ps[k], t[k + 1]);
  }

  lemma CallStartsNothing(b: Battery, p: Pass, c: Battery)
    requires Starts(b, p, c, false) && p.r.callActive && Trusted(p)
    ensures !Arms(b, c)
  {}

  // A repeated sample number is the same sample.
  predicate Cached(ps: seq<Pass>) {
    forall j | 0 < j < |ps| && ps[j].r.sequence == ps[j - 1].r.sequence :: ps[j].r.mv == ps[j - 1].r.mv
  }

  predicate SameNews(p: Pass, q: Pass) {
    p.r.sequence == q.r.sequence && p.r.mv == q.r.mv && p.r.callActive == q.r.callActive
  }

  lemma {:induction false} LastNews(ps: seq<Pass>)
    requires Cached(ps) && ps != [] && Usable(Last(ps))
    ensures var n := News(Stretch(ps)); n != [] && SameNews(Last(n), Last(ps))
  {
    if |ps| > 1 && SameSituation(Last(Init(ps)), Last(ps)) {
      var init := Init(ps);
      assert forall j | 0 <= j < |init| :: init[j] == ps[j];
      LastNews(init);
      NewsGrow(Stretch(init), Last(ps));
      assert Last(init) == ps[|ps| - 2];
    }
  }

  lemma NewsGrow(ps: seq<Pass>, p: Pass)
    requires ps != []
    ensures News(ps + [p]) == if p.r.sequence == Last(ps).r.sequence then News(ps) else News(ps) + [p]
  {
    assert Init(ps + [p]) == ps;
  }

  // Two different idle samples below 2100 mV, in polls k - 1 and k.
  predicate TwoIdleLow(ps: seq<Pass>, k: nat)
    requires 0 < k < |ps|
  {
    && (forall j | k - 1 <= j <= k :: Usable(ps[j]) && !ps[j].r.callActive && ps[j].r.mv < 2100)
    && ps[k].r.sequence != ps[k - 1].r.sequence
  }

  lemma StretchGrows(ps: seq<Pass>, k: nat)
    requires 0 < k < |ps| && SameSituation(ps[k - 1], ps[k])
    ensures Stretch(ps[..k + 1]) == Stretch(ps[..k]) + [ps[k]]
  {
    PrefixEnd(ps, k + 1);
    PrefixEnd(ps, k);
  }

  lemma TwoReachFloor(ps: seq<Pass>, k: nat)
    requires 0 < k < |ps| && Cached(ps) && TwoIdleLow(ps, k)
    ensures FloorReached(ps[..k + 1])
  {
    assert Usable(ps[k - 1]) && Usable(ps[k]);
    StretchGrows(ps, k);
    PrefixEnd(ps, k);
    LastNews(ps[..k]);
    NewsGrow(Stretch(ps[..k]), ps[k]);
  }

  // Two different samples below 2100 mV in two polls running outside a call arm a
  // countdown, whatever the gauge says and however far the charge is trusted.
  lemma IdleCollapseArms(t: seq<Battery>, ps: seq<Pass>, k: nat)
    requires IsRun(t, ps) && 0 < k < |ps| && t[0].evidence == NO_EVIDENCE && Cached(ps)
    requires TwoIdleLow(ps, k)
    ensures t[k].emptyOffMs == 0 ==> Arms(t[k], t[k + 1]) && t[k + 1].endpoint.armedKind == NaturalEmpty
  {
    TwoReachFloor(ps, k);
    ArmsExactly(t, ps, k);
    RunSupervised(t, ps);
    FloorArms(t[k], ps[k], t[k + 1], FloorReached(ps[..k + 1]));
  }

  lemma FloorArms(b: Battery, p: Pass, c: Battery, floor: bool)
    requires Starts(b, p, c, floor) && Supervised(b, p, c)
    requires floor && !Rescues(p) && !p.r.callActive
    ensures b.emptyOffMs == 0 ==> Arms(b, c) && c.endpoint.armedKind == NaturalEmpty
  {}

  // --- Low-battery warnings ---

  // The charge is running out, by any reading that says so.
  predicate RunningOut(p: Pass) {
    p.r.valid && (p.r.gaugeLow || p.r.gaugeEmpty || p.r.exhausted || (p.r.railFailed && p.r.railMarginal))
  }

  // A poll that no charging touched and no countdown runs into or out of.
  predicate Quiet(b: Battery, p: Pass, c: Battery) {
    !Rescues(p) && b.emptyOffMs == 0 && c.emptyOffMs == 0
  }

  // The poll warns of low battery, or keeps the warning schedule, by its readings alone.
  lemma LowByReadings(b: Battery, p: Pass)
    ensures WarningOf(b, p) == BatteryEndpoint.Low <==> Quiet(b, p, After(b, p)) && RunningOut(p)
    ensures WarningOf(b, p) == Hold <==> Quiet(b, p, After(b, p)) && !p.r.valid
  {
    PollSupervised(b, p);
    SensedFacts(b.(screen := p.shown), p.r);
  }

  // The first report of a full charge since the charger was put in.
  predicate FullReported(b: Battery, p: Pass) {
    && p.r.chargeCompleted && !p.r.maintenanceRestarted
    && (!b.charging.fullNotified || (p.r.charger && !b.charging.present))
  }

  // Nothing on the screen, nor any notice of this poll, is in the way of a warning.
  predicate NothingInTheWay(b: Battery, p: Pass) {
    && !p.shown.ContactService? && !p.shown.Message?
    && !(p.shown.Standby? && p.r.charger && !b.charging.present)
    && !(FullReported(b, p) && !p.shown.PoweredOff?)
  }

  lemma FreeByReadings(b: Battery, p: Pass)
    ensures ScreenFree(b, p) <==> NothingInTheWay(b, p)
  {}

  // A run that begins a spell of low battery and stays in it, by its readings.
  predicate WeakRun(t: seq<Battery>, ps: seq<Pass>) {
    && IsRun(t, ps) && Forward(ps) && ps != []
    && !t[0].low.notified && RunningOut(ps[0])
    && forall i | 0 <= i < |ps| :: Quiet(t[i], ps[i], t[i + 1]) && (ps[i].r.valid ==> RunningOut(ps[i]))
  }

  lemma WeakRunIsLow(t: seq<Battery>, ps: seq<Pass>)
    requires WeakRun(t, ps)
    ensures LowRun(t, ps)
  {
    forall i | 0 <= i < |ps|
      ensures InSpell(t[i], ps[i]) && (RunningOut(ps[i]) ==> WarningOf(t[i], ps[i]) == BatteryEndpoint.Low)
    {
      assert t[i + 1] == After(t[i], ps[i]);
      LowByReadings(t[i], ps[i]);
    }
  }

  // In a spell of low battery a poll warns exactly when it has a valid sample, the
  // screen is free and the time has come: at once, then 61 s later, then every 614 s.
  lemma WarnsByReadings(t: seq<Battery>, ps: seq<Pass>, k: nat)
    requires WeakRun(t, ps) && 0 < k < |ps|
    requires ps[k].r.at < Since(ps[0].r.at, Warnings(t, ps, k)) + HALF
    ensures var ws := Warnings(t, ps, k);
      Warnings(t, ps, k + 1) != ws <==>
        && ps[k].r.valid && NothingInTheWay(t[k], ps[k])
        && ps[k].r.at >= Since(ps[0].r.at, ws) + (if |ws| == 0 then 0 else if |ws| == 1 then 61000 else 614000)
  {
    WeakRunIsLow(t, ps);
    DueWarningShown(t, ps, k);
    assert t[k + 1] == After(t[k], ps[k]) && Quiet(t[k], ps[k], t[k + 1]);
    LowByReadings(t[k], ps[k]);
    FreeByReadings(t[k], ps[k]);
  }

  // --- What is reported of the endpoint ---

  function KindFor(b: Battery, p: Pass, c: Battery): Kind {
    if Rescues(p) then NoEndpoint
    else if b.emptyOffMs != 0 then
      (if b.endpoint.armedKind == NoEndpoint then EmergencyShutdown else b.endpoint.armedKind)
    else if Arms(b, c) then (if p.r.callActive && Trusted(p) then EmergencyShutdown else NaturalEmpty)
    else if Trusted(p) && (RailDown(p) || ShowsEmpty(p)) then LoadSag
    else if p.r.exhausted then CapacityPending
    else NoEndpoint
  }

  // The charge is said to be used up, and no voltage agrees.
  predicate Disagrees(p: Pass, floor: bool) {
    p.r.exhausted && p.r.valid && !p.r.gaugeLow && !p.r.gaugeEmpty && !floor && !RailDown(p)
  }

  // The kind reported is that of the countdown while one runs, and otherwise what the
  // readings come to; a disagreement is reported of readings alone.
  lemma KindByReadings(b: Battery, p: Pass)
    ensures var c := After(b, p);
      && c.kind == KindFor(b, p, c)
      && (c.disagreement <==> !Rescues(p) && b.emptyOffMs == 0 && Disagrees(p, Confirmed(c.evidence)))
  {
    var shown := b.(screen := p.shown);
    var (s, d) := Sensed(shown, p.r);
    SensedFacts(shown, p.r);
    PollObserves(b, p);
    PollSupervised(b, p);
    ActedReports(s, d, p.shown.PoweredOff?, p.shown.ContactService?, p.r);
  }

  lemma ActedReports(b: Battery, d: Decision, off: bool, contact: bool, r: Readings)
    ensures var c := Acted(b, d, off, contact, r); c.kind == b.kind && c.disagreement == b.disagreement
  {}

  // Charging that comes while the empty notice is up brings back what it covered.
  lemma RescueRestores(b: Battery, p: Pass)
    requires Rescues(p) && b.emptyOffMs != 0 && p.shown.Message? && p.shown.record == 15
    ensures After(b, p).screen == p.shown.back
  {}

  // --- Everything a poll asks for ---

  function When(c: bool, e: Effect): seq<Effect> {
    if c then [e] else []
  }

  predicate PluggedIn(b: Battery, p: Pass) {
    p.shown.Standby? && p.r.charger && !b.charging.present
  }

  // The charger feeds a battery that is running out, or is being turned off.
  predicate NeedsRelease(b: Battery, p: Pass, c: Battery) {
    && p.r.charger && !p.r.recovering
    && if p.shown.PoweredOff? then p.r.valid && p.r.gaugeLow
       else b.emptyOffMs != 0 || c.emptyOffMs != 0 || RunningOut(p)
  }

  lemma SensedLog(b: Battery, p: Pass)
    ensures var s := Sensed(b.(screen := p.shown), p.r).0;
      && s.log == b.log + When(PluggedIn(b, p), Notice(18, p.r.at)) +
           When(FullReported(b, p) && Free(p.shown) && !p.shown.PoweredOff? && !PluggedIn(b, p), Notice(14, p.r.at))
      && s.emptyOffMs == b.emptyOffMs && s.low == b.low
  {}

  lemma ActedLog(s: Battery, d: Decision, off: bool, contact: bool, r: Readings)
    requires var action := ActionOf(d, off, r);
      (action == Hold || action == BatteryEndpoint.Low ==> s.emptyOffMs == 0) && (action == Empty ==> !off)
    ensures var action, now := ActionOf(d, off, r), Wrap(r.at);
      var starts, open := action == Empty && s.emptyOffMs == 0, !contact && !s.screen.Message?;
      Acted(s, d, off, contact, r).log == s.log +
        When(r.charger && !r.recovering && (LowZone(d, r) || d.shutdown), ReleaseFloor(r.at)) +
        When(starts && d.learnEmpty, OfferEmpty(r.at)) +
        When(action == BatteryEndpoint.Low && open && TimeDiff(now, Entered(s.low, now).nextMs) >= 0,
             Notice(16, r.at)) +
        When(starts && open, Notice(15, r.at)) +
        When(action == Empty && !starts && TimeDiff(now, s.emptyOffMs) >= 0, TurnOff(r.at))
  {
    if ActionOf(d, off, r) == Empty && s.emptyOffMs == 0 {
      var q := StartCountdown(EndLow(ReleaseStage(s, d, r)), d, r);
      Overdue(EmptyNoticeStage(q, true, contact, r), r);
    }
  }

  // What the decision of a poll comes to, by its readings.
  lemma ActionByReadings(b: Battery, p: Pass)
    ensures var (s, d), c := Sensed(b.(screen := p.shown), p.r), After(b, p);
      && (WarningOf(b, p) == Empty <==> !Rescues(p) && (b.emptyOffMs != 0 || Arms(b, c)))
      && (Arms(b, c) ==> !Rescues(p))
      && (p.r.charger && !p.r.recovering && (LowZone(d, p.r) || d.shutdown) <==> NeedsRelease(b, p, c))
      && (Arms(b, c) ==> (d.learnEmpty <==> !(p.r.callActive && Trusted(p))))
  {
    PollSupervised(b, p);
    SensedFacts(b.(screen := p.shown), p.r);
    LowByReadings(b, p);
    if !Rescues(p) && b.emptyOffMs == 0 {
      DecisionByReadings(b, p);
    }
  }

  // What one poll asks of the services, in order, by its readings: notices of charging,
  // of a full charge, of low battery and of an empty one, the release of the charging
  // floor, the offer of EMPTY and the turn-off.
  lemma PollLog(b: Battery, p: Pass)
    ensures var c, at := After(b, p), p.r.at;
      var open := NothingInTheWay(b, p);
      c.log == b.log +
        When(PluggedIn(b, p), Notice(18, at)) +
        When(FullReported(b, p) && Free(p.shown) && !p.shown.PoweredOff? && !PluggedIn(b, p), Notice(14, at)) +
        When(NeedsRelease(b, p, c), ReleaseFloor(at)) +
        When(Arms(b, c) && !(p.r.callActive && Trusted(p)), OfferEmpty(at)) +
        When(Quiet(b, p, c) && RunningOut(p) && open &&
             (!b.low.notified || TimeDiff(Wrap(at), b.low.nextMs) >= 0), Notice(16, at)) +
        When(Arms(b, c) && open, Notice(15, at)) +
        When(!Rescues(p) && b.emptyOffMs != 0 && TimeDiff(Wrap(at), b.emptyOffMs) >= 0, TurnOff(at))
  {
    var (s, d) := Sensed(b.(screen := p.shown), p.r);
    SensedLog(b, p);
    ActionByReadings(b, p);
    LowByReadings(b, p);
    FreeByReadings(b, p);
    ActedLog(s, d, p.shown.PoweredOff?, p.shown.ContactService?, p.r);
  }
}
