// The battery supervision over whole runs of polls. Between two polls other code may
// put any screen up, a call may start or end, and any readings may come.

module BatteryRuns {
  import opened Timebase
  import opened BatteryEvidence
  import opened BatteryEndpoint
  import opened BatteryRuntime

  datatype Pass = Pass(shown: Screen, r: Readings)

  function After(b: Battery, p: Pass): Battery {
    Poll(b.(screen := p.shown), p.r)
  }

  // The states t before, between and after the polls ps.
  predicate IsRun(t: seq<Battery>, ps: seq<Pass>) {
    |t| == |ps| + 1 && forall i | 0 <= i < |ps| :: t[i + 1] == After(t[i], ps[i])
  }

  // Verified charging, or the phone already off.
  predicate Rescues(p: Pass) {
    p.r.recovering || p.shown.PoweredOff?
  }

  // --- What the log says ---

  datatype Tag = Offers | TurnOffs | LowNotices

  predicate Tagged(e: Effect, tag: Tag) {
    match tag
    case Offers => e.OfferEmpty?
    case TurnOffs => e.TurnOff?
    case LowNotices => e.Notice? && e.record == LOW_NOTICE
  }

  // When the effects of a kind happened.
  function Instants(log: seq<Effect>, tag: Tag): seq<nat> {
    if log == [] then []
    else
      var last := log[|log| - 1];
      Instants(log[..|log| - 1], tag) + if Tagged(last, tag) then [last.at] else []
  }

  lemma OneMore(log: seq<Effect>, e: Effect)
    ensures forall tag :: Instants(log + [e], tag) == Instants(log, tag) + if Tagged(e, tag) then [e.at] else []
  {
    assert (log + [e])[..|log|] == log;
  }

  predicate SameInstants(b: Battery, c: Battery) {
    forall tag :: Instants(c.log, tag) == Instants(b.log, tag)
  }

  // --- One poll, up to the decision ---

  predicate Undisturbed(b: Battery, c: Battery) {
    && c.low == b.low && c.emptyOffMs == b.emptyOffMs && SameInstants(b, c)
    && c.screen.PoweredOff? == b.screen.PoweredOff? && c.screen.ContactService? == b.screen.ContactService?
  }

  lemma ShowUndisturbed(b: Battery, record: nat, back: Screen, at: nat)
    requires record != LOW_NOTICE && Free(b.screen) && !b.screen.PoweredOff?
    ensures Undisturbed(b, Show(b, record, back, at))
  {
    OneMore(b.log, Notice(record, at));
  }

  lemma ChargerUndisturbed(b: Battery, r: Readings)
    ensures var c := ChargerStage(b, r); Undisturbed(b, c) && c.evidence == b.evidence && c.endpoint == b.endpoint
  {
    if b.screen.Standby? {
      ShowUndisturbed(b, CHARGING_NOTICE, Standby, r.at);
    }
  }

  lemma FullUndisturbed(b: Battery, r: Readings)
    ensures var c := FullStage(b, r); Undisturbed(b, c) && c.evidence == b.evidence && c.endpoint == b.endpoint
  {
    if Free(b.screen) && !b.screen.PoweredOff? {
      ShowUndisturbed(b, FULL_NOTICE, b.screen, r.at);
    }
  }

  // The signs one poll judges.
  function SignsAt(b: Battery, r: Readings): Signs {
    var off := b.screen.PoweredOff?;
    SignsOf(EvidenceStage(b, off, r), off, r)
  }

  lemma SensedFacts(b: Battery, r: Readings)
    ensures var (s, d) := Sensed(b, r);
      && Undisturbed(b, s)
      && s.evidence == Observe(b.evidence, SampleOf(b.screen.PoweredOff?, r))
      && (s.endpoint, d) == EndpointStep(b.endpoint, SignsAt(b, r))
  {
    ChargerUndisturbed(b, r);
    FullUndisturbed(ChargerStage(b, r), r);
  }

  // --- One poll, from the decision on ---

  lemma ReleaseUndisturbed(b: Battery, d: Decision, r: Readings)
    ensures Undisturbed(b, ReleaseStage(b, d, r))
  {
    OneMore(b.log, ReleaseFloor(r.at));
  }

  predicate Keeps(b: Battery, c: Battery) {
    c.endpoint == b.endpoint && c.evidence == b.evidence && c.kind == b.kind
  }

  lemma Overdue(b: Battery, r: Readings)
    ensures b.emptyOffMs == Deadline(Wrap(r.at)) ==> TimeDiff(Wrap(r.at), b.emptyOffMs) < 0
  {}

  lemma ActedKeeps(b: Battery, d: Decision, off: bool, contact: bool, r: Readings)
    ensures Keeps(b, Acted(b, d, off, contact, r))
  {}

  predicate SameCommands(b: Battery, c: Battery) {
    && Instants(c.log, Offers) == Instants(b.log, Offers)
    && Instants(c.log, TurnOffs) == Instants(b.log, TurnOffs)
  }

  lemma LowCommandsNothing(b: Battery, contact: bool, r: Readings)
    ensures var c := LowNoticeStage(b, contact, r);
      && c.emptyOffMs == b.emptyOffMs && SameCommands(b, c)
  {
    OneMore(b.log, Notice(LOW_NOTICE, r.at));
  }

  lemma WarningCommandsNothing(b: Battery, d: Decision, action: Warning, contact: bool, r: Readings)
    requires action != Empty && (action == Hold ==> b.emptyOffMs == 0)
    ensures var c := WarningStage(b, d, action, contact, r);
      && c.emptyOffMs == 0 && SameCommands(b, c)
  {
    LowCommandsNothing(EnterLow(CancelCountdown(b), Wrap(r.at)), contact, r);
  }

  // No countdown is left, and nothing is offered or turned off.
  lemma ActedWithoutEmpty(b: Battery, d: Decision, off: bool, contact: bool, r: Readings)
    requires ActionOf(d, off, r) != Empty && (ActionOf(d, off, r) == Hold ==> b.emptyOffMs == 0)
    ensures var c := Acted(b, d, off, contact, r); c.emptyOffMs == 0 && SameCommands(b, c)
  {
    ReleaseUndisturbed(b, d, r);
    WarningCommandsNothing(ReleaseStage(b, d, r), d, ActionOf(d, off, r), contact, r);
  }

  // A running countdown is left alone until it is due.
  lemma ActedCounting(b: Battery, d: Decision, contact: bool, r: Readings)
    requires ActionOf(d, false, r) == Empty && b.emptyOffMs != 0
    ensures var c := Acted(b, d, false, contact, r);
      var due := TimeDiff(Wrap(r.at), b.emptyOffMs) >= 0;
      && c.emptyOffMs == (if due then 0 else b.emptyOffMs)
      && (due ==> c.screen.PoweredOff?)
      && Instants(c.log, Offers) == Instants(b.log, Offers)
      && Instants(c.log, TurnOffs) == Instants(b.log, TurnOffs) + if due then [r.at] else []
  {
    var s := ReleaseStage(b, d, r);
    ReleaseUndisturbed(b, d, r);
    OneMore(s.log, TurnOff(r.at));
  }

  lemma Starting(b: Battery, d: Decision, r: Readings)
    requires b.emptyOffMs == 0
    ensures var c := StartCountdown(EndLow(b), d, r);
      && c.emptyOffMs == Deadline(Wrap(r.at))
      && Instants(c.log, Offers) == Instants(b.log, Offers) + (if d.learnEmpty then [r.at] else [])
      && Instants(c.log, TurnOffs) == Instants(b.log, TurnOffs)
  {
    OneMore(b.log, OfferEmpty(r.at));
    assert b.log + [] == b.log;
  }

  lemma NothingDue(b: Battery, contact: bool, r: Readings)
    requires b.emptyOffMs == Deadline(Wrap(r.at))
    ensures var c := ExpiryStage(EmptyNoticeStage(b, true, contact, r), false, r);
      c.emptyOffMs == b.emptyOffMs && SameCommands(b, c)
  {
    OneMore(b.log, Notice(EMPTY_NOTICE, r.at));
    Overdue(EmptyNoticeStage(b, true, contact, r), r);
  }

  // A countdown starts here.
  lemma ActedArming(b: Battery, d: Decision, contact: bool, r: Readings)
    requires ActionOf(d, false, r) == Empty && b.emptyOffMs == 0
    ensures var c := Acted(b, d, false, contact, r);
      && c.emptyOffMs == Deadline(Wrap(r.at))
      && Instants(c.log, Offers) == Instants(b.log, Offers) + (if d.learnEmpty then [r.at] else [])
      && Instants(c.log, TurnOffs) == Instants(b.log, TurnOffs)
  {
    var s := ReleaseStage(b, d, r);
    ReleaseUndisturbed(b, d, r);
    Starting(s, d, r);
    NothingDue(StartCountdown(EndLow(s), d, r), contact, r);
  }

  // --- One poll ---

  lemma PollObserves(b: Battery, p: Pass)
    ensures After(b, p).evidence == Observe(b.evidence, SampleOf(p.shown.PoweredOff?, p.r))
  {
    var shown := b.(screen := p.shown);
    SensedFacts(shown, p.r);
    var (s, d) := Sensed(shown, p.r);
    ActedKeeps(s, d, p.shown.PoweredOff?, p.shown.ContactService?, p.r);
  }

  // Charging or power-off ends any countdown and forgets the endpoint.
  predicate RescuedStep(b: Battery, c: Battery) {
    c.emptyOffMs == 0 && c.endpoint == NO_STATE && SameCommands(b, c)
  }

  lemma RescuedPoll(b: Battery, p: Pass)
    requires Rescues(p)
    ensures RescuedStep(b, After(b, p))
  {
    var shown := b.(screen := p.shown);
    SensedFacts(shown, p.r);
    var (s, d) := Sensed(shown, p.r);
    ActedKeeps(s, d, p.shown.PoweredOff?, p.shown.ContactService?, p.r);
    ActedWithoutEmpty(s, d, p.shown.PoweredOff?, p.shown.ContactService?, p.r);
  }

  // A running countdown outlives everything else: any readings, any call, any screen.
  predicate CountingStep(b: Battery, p: Pass, c: Battery) {
    var due := TimeDiff(Wrap(p.r.at), b.emptyOffMs) >= 0;
    && c.endpoint == b.endpoint
    && c.emptyOffMs == (if due then 0 else b.emptyOffMs)
    && (due ==> c.screen.PoweredOff?)
    && Instants(c.log, Offers) == Instants(b.log, Offers)
    && Instants(c.log, TurnOffs) == Instants(b.log, TurnOffs) + if due then [p.r.at] else []
  }

  lemma CountingPoll(b: Battery, p: Pass)
    requires !Rescues(p) && b.emptyOffMs != 0
    ensures CountingStep(b, p, After(b, p))
  {
    var shown := b.(screen := p.shown);
    SensedFacts(shown, p.r);
    var (s, d) := Sensed(shown, p.r);
    ActedKeeps(s, d, false, p.shown.ContactService?, p.r);
    ActedCounting(s, d, p.shown.ContactService?, p.r);
  }

  // The signs this poll judges.
  function SignsFor(b: Battery, p: Pass): Signs {
    SignsAt(b.(screen := p.shown), p.r)
  }

  // With no countdown running, one starts exactly on a shutdown decision.
  predicate IdleStep(b: Battery, p: Pass, c: Battery) {
    var (e, d) := EndpointStep(b.endpoint, SignsFor(b, p));
    && c.endpoint == e
    && c.emptyOffMs == (if d.shutdown then Deadline(Wrap(p.r.at)) else 0)
    && Instants(c.log, Offers) == Instants(b.log, Offers) + (if d.learnEmpty then [p.r.at] else [])
    && Instants(c.log, TurnOffs) == Instants(b.log, TurnOffs)
  }

  lemma IdlePoll(b: Battery, p: Pass)
    requires !Rescues(p) && b.emptyOffMs == 0
    ensures IdleStep(b, p, After(b, p))
  {
    var shown := b.(screen := p.shown);
    SensedFacts(shown, p.r);
    var (s, d) := Sensed(shown, p.r);
    ActedKeeps(s, d, false, p.shown.ContactService?, p.r);
    if d.shutdown {
      ActedArming(s, d, p.shown.ContactService?, p.r);
    } else {
      ActedWithoutEmpty(s, d, false, p.shown.ContactService?, p.r);
    }
  }

  predicate Supervised(b: Battery, p: Pass, c: Battery) {
    if Rescues(p) then RescuedStep(b, c)
    else if b.emptyOffMs != 0 then CountingStep(b, p, c)
    else IdleStep(b, p, c)
  }

  lemma PollSupervised(b: Battery, p: Pass)
    ensures Supervised(b, p, After(b, p))
  {
    if Rescues(p) {
      RescuedPoll(b, p);
    } else if b.emptyOffMs != 0 {
      CountingPoll(b, p);
    } else {
      IdlePoll(b, p);
    }
  }

  predicate SupervisedRun(t: seq<Battery>, ps: seq<Pass>) {
    |t| == |ps| + 1 && forall i | 0 <= i < |ps| :: Supervised(t[i], ps[i], t[i + 1])
  }

  lemma RunSupervised(t: seq<Battery>, ps: seq<Pass>)
    requires IsRun(t, ps)
    ensures SupervisedRun(t, ps)
  {
    forall i | 0 <= i < |ps| ensures Supervised(t[i], ps[i], t[i + 1]) {
      PollSupervised(t[i], ps[i]);
    }
  }

  // --- The low-battery schedule ---

  function WarningOf(b: Battery, p: Pass): Warning {
    ActionAt(b.(screen := p.shown), p.r)
  }

  // Nothing is in the way of a notice.
  predicate ScreenFree(b: Battery, p: Pass) {
    !p.shown.ContactService? && !Sensed(b.(screen := p.shown), p.r).0.screen.Message?
  }

  function Entered(low: LowSchedule, now: u32): LowSchedule {
    if low.notified then low else LowSchedule(true, true, now)
  }

  // The schedule after a warning.
  function Rescheduled(low: LowSchedule, now: u32): LowSchedule {
    LowSchedule(true, false, Add32(now, if low.fast then LOW_WARN_FAST else LOW_WARN_STEADY))
  }

  // What one poll does to the schedule, and whether it warns.
  predicate LowStep(b: Battery, p: Pass, c: Battery) {
    var now := Wrap(p.r.at);
    var low := Entered(b.low, now);
    var shows := WarningOf(b, p) == Low && ScreenFree(b, p) && TimeDiff(now, low.nextMs) >= 0;
    && Instants(c.log, LowNotices) == Instants(b.log, LowNotices) + (if shows then [p.r.at] else [])
    && (WarningOf(b, p) == Hold ==> c.low == b.low)
    && (WarningOf(b, p) == Low ==>
          c.low == if shows then Rescheduled(low, now)
                   else low)
    && (WarningOf(b, p) != Hold && WarningOf(b, p) != Low ==> !c.low.notified)
  }

  lemma LowPoll(b: Battery, p: Pass)
    ensures LowStep(b, p, After(b, p))
  {
    var shown := b.(screen := p.shown);
    SensedFacts(shown, p.r);
    var (s, d) := Sensed(shown, p.r);
    ReleaseUndisturbed(s, d, p.r);
    var q := ReleaseStage(s, d, p.r);
    var action := WarningOf(b, p);
    var contact := p.shown.ContactService?;
    WarningLow(q, d, action, contact, p.r);
    var w := WarningStage(q, d, action, contact, p.r);
    LastStagesLow(w, action == Empty && q.emptyOffMs == 0, p.shown.PoweredOff?, contact, p.r);
    assert action == Low ==> b.emptyOffMs == 0;
  }

  lemma WarningLow(b: Battery, d: Decision, action: Warning, contact: bool, r: Readings)
    requires action == Low ==> b.emptyOffMs == 0
    ensures var c, low := WarningStage(b, d, action, contact, r), Entered(b.low, Wrap(r.at));
      var shows := action == Low && !contact && !b.screen.Message? && TimeDiff(Wrap(r.at), low.nextMs) >= 0;
      && Instants(c.log, LowNotices) == Instants(b.log, LowNotices) + (if shows then [r.at] else [])
      && c.low == match action
                  case Hold => b.low
                  case Low =>
                    if shows then Rescheduled(low, Wrap(r.at))
                    else low
                  case _ => b.low.(notified := false)
  {
    OneMore(b.log, Notice(LOW_NOTICE, r.at));
    OneMore(b.log, OfferEmpty(r.at));
    assert b.log + [] == b.log;
  }

  lemma LastStagesLow(b: Battery, started: bool, off: bool, contact: bool, r: Readings)
    ensures var c := ExpiryStage(EmptyNoticeStage(b, started, contact, r), off, r);
      c.low == b.low && Instants(c.log, LowNotices) == Instants(b.log, LowNotices)
  {
    OneMore(b.log, Notice(EMPTY_NOTICE, r.at));
    OneMore(EmptyNoticeStage(b, started, contact, r).log, TurnOff(r.at));
  }
}
