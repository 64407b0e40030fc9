// What battery supervision guarantees over every run of polls.

module BatterySafety {
  import opened Timebase
  import opened BatteryEvidence
  import opened BatteryEndpoint
  import opened BatteryRuntime
  import opened BatteryRuns

  // --- The countdown ---

  // 2056 ms after arming, or 2057 when that word would be the reserved 0.
  function DueAt(armed: nat): (d: nat)
    ensures armed + 2056 <= d <= armed + 2057
    ensures Wrap(d) == Deadline(Wrap(armed))
  {
    DeadlineWord(armed);
    if Wrap(armed + EMPTY_OFF_DELAY) == 0 then armed + 2057 else armed + 2056
  }

  lemma DeadlineWord(armed: nat)
    ensures Add32(Wrap(armed), EMPTY_OFF_DELAY) == Wrap(armed + EMPTY_OFF_DELAY)
    ensures Wrap(armed + EMPTY_OFF_DELAY) == 0 ==> Wrap(armed + 2057) == 1
  {
    var k := -(armed / WORD);
    assert Wrap(armed) + EMPTY_OFF_DELAY == armed + EMPTY_OFF_DELAY + k * WORD;
    WrapShift(armed + EMPTY_OFF_DELAY, k);
  }

  // The clock never goes back.
  predicate Forward(ps: seq<Pass>) {
    forall i | 0 < i < |ps| :: ps[i - 1].r.at <= ps[i].r.at
  }

  lemma {:induction false} NeverBack(ps: seq<Pass>, i: nat, j: nat)
    requires Forward(ps) && i <= j < |ps|
    ensures ps[i].r.at <= ps[j].r.at
  {
    if i < j {
      NeverBack(ps, i, j - 1);
    }
  }

  // The wrapped clock of this poll stands less than half a turn past the instant d.
  predicate Due(p: Pass, d: nat) {
    (p.r.at - d) % WORD < HALF
  }

  lemma DueByClock(p: Pass, d: nat)
    ensures TimeDiff(Wrap(p.r.at), Wrap(d)) >= 0 <==> Due(p, d)
  {
    SubWrap(p.r.at, d);
  }

  predicate StillCounting(b: Battery, c: Battery) {
    c.emptyOffMs == b.emptyOffMs && c.endpoint == b.endpoint && SameCommands(b, c)
  }

  // The polls i..k neither bring charging or power-off nor are due.
  predicate Waits(ps: seq<Pass>, i: nat, k: nat, d: nat)
    requires i <= k <= |ps|
  {
    forall j | i <= j < k :: !Rescues(ps[j]) && !Due(ps[j], d)
  }

  lemma {:induction false} CountdownHolds(t: seq<Battery>, ps: seq<Pass>, i: nat, k: nat, d: nat)
    requires SupervisedRun(t, ps) && i < k <= |ps|
    requires t[i + 1].emptyOffMs == Wrap(d) != 0 && Waits(ps, i + 1, k, d)
    ensures StillCounting(t[i + 1], t[k])
  {
    if i + 1 < k {
      CountdownHolds(t, ps, i, k - 1, d);
      DueByClock(ps[k - 1], d);
      assert Supervised(t[k - 1], ps[k - 1], t[k]);
    }
  }

  lemma CountdownEnds(t: seq<Battery>, ps: seq<Pass>, k: nat, d: nat)
    requires SupervisedRun(t, ps) && k < |ps| && t[k].emptyOffMs == Wrap(d) != 0
    ensures Rescues(ps[k]) ==> RescuedStep(t[k], t[k + 1])
    ensures !Rescues(ps[k]) && Due(ps[k], d) ==>
      && t[k + 1].emptyOffMs == 0 && t[k + 1].screen.PoweredOff?
      && Instants(t[k + 1].log, TurnOffs) == Instants(t[k].log, TurnOffs) + [ps[k].r.at]
  {
    DueByClock(ps[k], d);
    assert Supervised(t[k], ps[k], t[k + 1]);
  }

  // From the poll i that armed it, the countdown runs on untouched, whatever readings,
  // calls and screens come, up to the first poll k that brings charging or power-off or
  // is due. Charging and power-off cancel it; otherwise that poll turns the phone off,
  // at least 2056 ms after arming, across a wrap of the clock too.
  lemma CountdownFate(t: seq<Battery>, ps: seq<Pass>, i: nat, k: nat)
    requires IsRun(t, ps) && Forward(ps) && i < k <= |ps|
    requires t[i].emptyOffMs == 0 && t[i + 1].emptyOffMs != 0
    requires Waits(ps, i + 1, k, DueAt(ps[i].r.at))
    ensures StillCounting(t[i + 1], t[k])
    ensures k < |ps| && Rescues(ps[k]) ==>
      t[k + 1].emptyOffMs == 0 && SameCommands(t[i + 1], t[k + 1])
    ensures k < |ps| && !Rescues(ps[k]) && Due(ps[k], DueAt(ps[i].r.at)) ==>
      && t[k + 1].emptyOffMs == 0 && t[k + 1].screen.PoweredOff?
      && Instants(t[k + 1].log, TurnOffs) == Instants(t[i + 1].log, TurnOffs) + [ps[k].r.at]
      && ps[k].r.at >= ps[i].r.at + 2056
  {
    var d := DueAt(ps[i].r.at);
    RunSupervised(t, ps);
    assert Supervised(t[i], ps[i], t[i + 1]);
    CountdownHolds(t, ps, i, k, d);
    if k < |ps| {
      CountdownEnds(t, ps, k, d);
      NeverBack(ps, i, k);
      NotDueBefore(ps[k], d);
    }
  }

  lemma NotDueBefore(p: Pass, d: nat)
    requires p.r.at >= d - 2057
    ensures Due(p, d) && p.r.at < d + HALF ==> p.r.at >= d
    ensures p.r.at < d ==> !Due(p, d)
  {}

  // A poll is due exactly at or after the deadline, provided it comes less than 2^31 ms
  // after one before the deadline.
  lemma PunctualPoll(ps: seq<Pass>, i: nat, k: nat)
    requires Forward(ps) && i < k < |ps|
    requires var d := DueAt(ps[i].r.at); ps[k - 1].r.at < d && ps[k].r.at - ps[k - 1].r.at < HALF
    ensures Due(ps[k], DueAt(ps[i].r.at)) <==> ps[k].r.at >= DueAt(ps[i].r.at)
  {
    NeverBack(ps, i, k);
    NotDueBefore(ps[k], DueAt(ps[i].r.at));
  }

  // The phone is turned off only by a countdown that was running.
  lemma TurnOffNeedsCountdown(b: Battery, p: Pass)
    requires Instants(After(b, p).log, TurnOffs) != Instants(b.log, TurnOffs)
    ensures b.emptyOffMs != 0 && !Rescues(p) && TimeDiff(Wrap(p.r.at), b.emptyOffMs) >= 0
  {
    PollSupervised(b, p);
  }

  // --- What is offered to the learner ---

  predicate Arms(b: Battery, c: Battery) {
    b.emptyOffMs == 0 && c.emptyOffMs != 0
  }

  // The instants at which the first k polls armed a countdown for a natural endpoint.
  function NaturalArmings(t: seq<Battery>, ps: seq<Pass>, k: nat): seq<nat>
    requires |t| == |ps| + 1 && k <= |ps|
  {
    if k == 0 then []
    else
      NaturalArmings(t, ps, k - 1) +
      if Arms(t[k - 1], t[k]) && t[k].endpoint.armedKind == NaturalEmpty then [ps[k - 1].r.at] else []
  }

  lemma OfferWhenArmed(b: Battery, p: Pass, c: Battery)
    requires Supervised(b, p, c)
    ensures Instants(c.log, Offers) == Instants(b.log, Offers) +
      if Arms(b, c) && c.endpoint.armedKind == NaturalEmpty then [p.r.at] else []
  {}

  // EMPTY is offered once for each countdown armed for a natural endpoint, when it is
  // armed, and at no other time: never twice, and never for an emergency.
  lemma {:induction false} OffersAreNaturalArmings(t: seq<Battery>, ps: seq<Pass>, k: nat)
    requires SupervisedRun(t, ps) && k <= |ps|
    ensures Instants(t[k].log, Offers) == Instants(t[0].log, Offers) + NaturalArmings(t, ps, k)
  {
    if k > 0 {
      OffersAreNaturalArmings(t, ps, k - 1);
      assert Supervised(t[k - 1], ps[k - 1], t[(k - 1) + 1]);
      OfferWhenArmed(t[k - 1], ps[k - 1], t[k]);
    }
  }

  lemma RunOffers(t: seq<Battery>, ps: seq<Pass>)
    requires IsRun(t, ps)
    ensures Instants(t[|ps|].log, Offers) == Instants(t[0].log, Offers) + NaturalArmings(t, ps, |ps|)
    ensures forall i | 0 <= i < |ps| && Arms(t[i], t[i + 1]) ::
      t[i + 1].endpoint.armedKind == NaturalEmpty || t[i + 1].endpoint.armedKind == EmergencyShutdown
  {
    RunSupervised(t, ps);
    OffersAreNaturalArmings(t, ps, |ps|);
    forall i | 0 <= i < |ps| && Arms(t[i], t[i + 1])
      ensures t[i + 1].endpoint.armedKind == NaturalEmpty || t[i + 1].endpoint.armedKind == EmergencyShutdown
    {
      assert Supervised(t[i], ps[i], t[i + 1]);
    }
  }

  // EMPTY is never offered while a countdown runs nor in a call with trusted charge, and
  // never without a physical sign.
  lemma OfferIsLegitimate(b: Battery, p: Pass)
    requires Instants(After(b, p).log, Offers) != Instants(b.log, Offers)
    ensures var g := SignsFor(b, p);
      && b.emptyOffMs == 0 && !Rescues(p)
      && !(g.callActive && g.Trusted())
      && (g.floorConfirmed || g.railCollapse || (g.valid && g.gaugeEmpty) || (g.valid && g.gaugeLow && g.exhausted))
  {
    PollSupervised(b, p);
  }

  // --- A sag under load ---

  // The charge stays trusted, and nothing lifts the sag.
  predicate SagPersists(p: Pass) {
    && !Rescues(p)
    && p.r.chargeAnchored && !p.r.exhausted
    && !(p.r.valid && !p.r.gaugeEmpty && !SupplyCollapse(false, p.r))
  }

  predicate SagKept(p: Pass, b: Battery, c: Battery) {
    && c.endpoint.sagLatched
    && ((Confirmed(c.evidence) && !p.r.callActive) || Instants(c.log, Offers) == Instants(b.log, Offers))
  }

  lemma SagPoll(b: Battery, p: Pass)
    requires b.endpoint.sagLatched && SagPersists(p)
    ensures SagKept(p, b, After(b, p))
  {
    PollObserves(b, p);
    PollSupervised(b, p);
    SagHolds(b.endpoint, SignsFor(b, p));
  }

  // An EMPTY reading in a call is latched as a sag while the charge is trusted.
  lemma CallLatchesSag(b: Battery, p: Pass)
    requires !Rescues(p) && b.emptyOffMs == 0 && p.r.callActive && p.r.valid && p.r.gaugeEmpty
    requires p.r.chargeAnchored && !p.r.exhausted
    ensures After(b, p).endpoint.sagLatched
    ensures Instants(After(b, p).log, Offers) == Instants(b.log, Offers)
  {
    PollSupervised(b, p);
  }

  // From then on, for as long as that lasts, the gauge teaches nothing: EMPTY can be
  // offered only by the confirmed floor outside a call.
  lemma {:induction false} SagTeachesNothing(t: seq<Battery>, ps: seq<Pass>, k: nat)
    requires IsRun(t, ps) && k <= |ps|
    requires t[0].endpoint.sagLatched && forall i | 0 <= i < k :: SagPersists(ps[i])
    requires forall i | 0 <= i < k :: ps[i].r.callActive || !Confirmed(t[i + 1].evidence)
    ensures t[k].endpoint.sagLatched
    ensures Instants(t[k].log, Offers) == Instants(t[0].log, Offers)
  {
    if k > 0 {
      SagTeachesNothing(t, ps, k - 1);
      SagPoll(t[k - 1], ps[k - 1]);
      assert t[(k - 1) + 1] == After(t[k - 1], ps[k - 1]);
    }
  }

  // --- The floor ---

  function SamplesOf(ps: seq<Pass>): seq<Sample> {
    if ps == [] then []
    else SamplesOf(ps[..|ps| - 1]) + [SampleOf(ps[|ps| - 1].shown.PoweredOff?, ps[|ps| - 1].r)]
  }

  predicate Sampled(t: seq<Battery>, ps: seq<Pass>) {
    |t| == |ps| + 1 && forall i | 0 <= i < |ps| ::
      t[i + 1].evidence == Observe(t[i].evidence, SampleOf(ps[i].shown.PoweredOff?, ps[i].r))
  }

  lemma RunSampled(t: seq<Battery>, ps: seq<Pass>)
    requires IsRun(t, ps)
    ensures Sampled(t, ps)
  {
    forall i | 0 <= i < |ps|
      ensures t[i + 1].evidence == Observe(t[i].evidence, SampleOf(ps[i].shown.PoweredOff?, ps[i].r))
    {
      PollObserves(t[i], ps[i]);
    }
  }

  lemma {:induction false} EvidenceObserved(t: seq<Battery>, ps: seq<Pass>, k: nat)
    requires Sampled(t, ps) && k <= |ps| && t[0].evidence == NO_EVIDENCE
    ensures t[k].evidence == Observed(SamplesOf(ps[..k]))
  {
    if k > 0 {
      EvidenceObserved(t, ps, k - 1);
      assert t[(k - 1) + 1].evidence == t[k].evidence;
      assert ps[..k][..k - 1] == ps[..k - 1];
      assert BatteryEvidence.Init(SamplesOf(ps[..k])) == SamplesOf(ps[..k - 1]);
    }
  }

  // Whether the floor is confirmed is a fact about what the polls so far have sampled.
  lemma FloorMeaning(t: seq<Battery>, ps: seq<Pass>, k: nat)
    requires IsRun(t, ps) && k <= |ps| && t[0].evidence == NO_EVIDENCE
    ensures Confirmed(t[k].evidence) <==> LowStreak(SamplesOf(ps[..k])) >= CONFIRM_SAMPLES
  {
    RunSampled(t, ps);
    EvidenceObserved(t, ps, k);
    ConfirmedMeaning(SamplesOf(ps[..k]));
  }

  // --- Low-battery warnings ---

  function Interval(shown: nat): nat {
    if shown == 0 then 0 else if shown == 1 then LOW_WARN_FAST else LOW_WARN_STEADY
  }

  // Within one spell of low battery that has warned shown times, the last at since;
  // before the first warning, since is when the spell began.
  predicate Spell(low: LowSchedule, since: nat, shown: nat) {
    && low.notified && (low.fast <==> shown == 0)
    && low.nextMs == Wrap(since + Interval(shown))
  }

  predicate InSpell(b: Battery, p: Pass) {
    WarningOf(b, p) == Low || WarningOf(b, p) == Hold
  }

  // The first warning comes at once, later ones keep their distance.
  predicate Spaced(ws: seq<nat>) {
    forall i | 0 < i < |ws| :: ws[i] - ws[i - 1] >= Interval(i)
  }

  lemma IntervalWord(since: nat, shown: nat)
    ensures Add32(Wrap(since), if shown == 0 then LOW_WARN_FAST else LOW_WARN_STEADY) ==
            Wrap(since + Interval(shown + 1))
  {
    var step := Interval(shown + 1);
    var k := -(since / WORD);
    assert Wrap(since) + step == since + step + k * WORD;
    WrapShift(since + step, k);
  }

  predicate Warned(b: Battery, c: Battery) {
    Instants(c.log, LowNotices) != Instants(b.log, LowNotices)
  }

  predicate SpellStep(b: Battery, c: Battery, at: nat, since: nat, shown: nat) {
    if Warned(b, c) then
      && Instants(c.log, LowNotices) == Instants(b.log, LowNotices) + [at]
      && at >= since + Interval(shown) && Spell(c.low, at, shown + 1)
    else Spell(c.low, since, shown)
  }

  // A poll inside a spell never warns too early, and as long as the clock has not run
  // half way round it warns exactly when the screen is free and the time has come.
  lemma SpellPoll(b: Battery, p: Pass, since: nat, shown: nat)
    requires InSpell(b, p) && since <= p.r.at
    requires if b.low.notified then Spell(b.low, since, shown)
             else WarningOf(b, p) == Low && shown == 0 && since == p.r.at
    ensures SpellStep(b, After(b, p), p.r.at, since, shown)
    ensures p.r.at < since + HALF ==>
      (Warned(b, After(b, p)) <==>
         WarningOf(b, p) == Low && ScreenFree(b, p) && p.r.at >= since + Interval(shown))
  {
    LowPoll(b, p);
    if p.r.at < since + HALF {
      TimeDiffExact(p.r.at, since + Interval(shown));
    }
    IntervalWord(p.r.at, shown);
  }

  // A run that begins a spell of low battery and stays in it.
  predicate LowRun(t: seq<Battery>, ps: seq<Pass>) {
    && IsRun(t, ps) && Forward(ps) && ps != []
    && !t[0].low.notified && WarningOf(t[0], ps[0]) == Low
    && forall i | 0 <= i < |ps| :: InSpell(t[i], ps[i])
  }

  // When its first k polls warned.
  function Warnings(t: seq<Battery>, ps: seq<Pass>, k: nat): seq<nat>
    requires |t| == |ps| + 1 && k <= |ps|
  {
    if k == 0 then []
    else
      Warnings(t, ps, k - 1) +
      if Warned(t[k - 1], t[k]) then [ps[k - 1].r.at] else []
  }

  function Since(began: nat, ws: seq<nat>): nat {
    if ws == [] then began else ws[|ws| - 1]
  }

  lemma SpacedAppend(ws: seq<nat>, at: nat)
    requires Spaced(ws) && (ws != [] ==> at >= ws[|ws| - 1] + Interval(|ws|))
    ensures Spaced(ws + [at])
  {}

  // b is inside a spell that began at began, after the warnings ws.
  predicate Cadence(before: seq<nat>, b: Battery, began: nat, ws: seq<nat>, at: nat) {
    && Instants(b.log, LowNotices) == before + ws
    && Spaced(ws) && Since(began, ws) <= at
    && Spell(b.low, Since(began, ws), |ws|)
  }

  lemma CadenceStep(before: seq<nat>, b: Battery, c: Battery, began: nat, ws: seq<nat>, at: nat)
    requires Instants(b.log, LowNotices) == before + ws && Spaced(ws) && Since(began, ws) <= at
    requires SpellStep(b, c, at, Since(began, ws), |ws|)
    ensures Cadence(before, c, began, ws + if Warned(b, c) then [at] else [], at)
  {
    if Warned(b, c) {
      SpacedAppend(ws, at);
    } else {
      assert ws + [] == ws;
    }
  }

  // Over the spell the first warning comes at the first chance, the second at least
  // 61 s later and every further one at least 614 s after the one before it.
  lemma {:induction false} SpellCadence(t: seq<Battery>, ps: seq<Pass>, k: nat)
    requires LowRun(t, ps) && 0 < k <= |ps|
    ensures Cadence(Instants(t[0].log, LowNotices), t[k], ps[0].r.at, Warnings(t, ps, k), ps[k - 1].r.at)
  {
    var b, p, ws := t[k - 1], ps[k - 1], Warnings(t, ps, k - 1);
    if k > 1 {
      SpellCadence(t, ps, k - 1);
    }
    SpellPolled(t, ps, k - 1, Since(ps[0].r.at, ws), |ws|);
    CadenceStep(Instants(t[0].log, LowNotices), b, t[k], ps[0].r.at, ws, p.r.at);
  }

  lemma SpellPolled(t: seq<Battery>, ps: seq<Pass>, i: nat, since: nat, shown: nat)
    requires LowRun(t, ps) && i < |ps| && since <= ps[i].r.at
    requires if i == 0 then shown == 0 && since == ps[0].r.at else Spell(t[i].low, since, shown)
    ensures SpellStep(t[i], t[i + 1], ps[i].r.at, since, shown)
  {
    assert InSpell(t[i], ps[i]) && t[i + 1] == After(t[i], ps[i]);
    SpellPoll(t[i], ps[i], since, shown);
  }

  // And no warning that is due is left out.
  lemma DueWarningShown(t: seq<Battery>, ps: seq<Pass>, k: nat)
    requires LowRun(t, ps) && 0 < k < |ps|
    requires ps[k].r.at < Since(ps[0].r.at, Warnings(t, ps, k)) + HALF
    ensures var ws := Warnings(t, ps, k);
      Warnings(t, ps, k + 1) != ws <==>
        WarningOf(t[k], ps[k]) == Low && ScreenFree(t[k], ps[k]) && ps[k].r.at >= Since(ps[0].r.at, ws) + Interval(|ws|)
  {
    var ws := Warnings(t, ps, k);
    SpellCadence(t, ps, k);
    assert InSpell(t[k], ps[k]) && t[k + 1] == After(t[k], ps[k]);
    assert ps[k - 1].r.at <= ps[k].r.at;
    SpellPoll(t[k], ps[k], Since(ps[0].r.at, ws), |ws|);
  }
}
