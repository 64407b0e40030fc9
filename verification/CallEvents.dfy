// Everything that can happen to a call session, poll or key press, as one step
// relation, and the runs it generates.

module CallEvents {
  import opened Timebase
  import opened CallTypes
  import opened CallStore
  import opened CallSession

  datatype Event =
    | PollEvent(inp: PollInput)
    | NavigateEvent(route: Route)
    | AnswerEvent(now: u32, admitted: bool)
    | RejectEvent(newId: RecordId)
    | AnswerWaitingEvent(admitted: bool)
    | RejectWaitingEvent
    | SwapEvent
    | HoldEvent
    | EndThisEvent(st: Status, now: u32, newId: RecordId, admitted: bool)
    | EndEvent(now: u32, newId: RecordId)
    | EndAllEvent(now: u32, newId: RecordId)
    | CancelEvent(st: Status, now: u32, admitted: bool)
    | DialEvent(d: DialInput)
    | DialSecondEvent(d: DialInput)
    | ClearTimersEvent

  // When the app offers the action. Other screens may come and go, but only a
  // ringing call's own screen is ever returned to as the incoming-call screen.
  predicate Offered(s: Session, e: Event) {
    match e
    case NavigateEvent(route) => route == IncomingCall ==> s.incoming.active && s.phase == Setup
    case AnswerEvent(_, _) => s.route == IncomingCall
    case RejectEvent(_) => s.route == IncomingCall
    case CancelEvent(_, _, _) => SettingUpSecond(s)
    case DialSecondEvent(_) => s.phase == Live
    case _ => true
  }

  // Keys and screens that never end a call.
  function Press(s: Session, e: Event): Session {
    match e
    case NavigateEvent(route) => s.(route := route)
    case AnswerEvent(now, admitted) => AnswerIncoming(s, now, admitted)
    case AnswerWaitingEvent(admitted) => AnswerWaiting(s, admitted)
    case RejectWaitingEvent => RejectWaiting(s)
    case SwapEvent => SwapCalls(s)
    case HoldEvent => ToggleHold(s)
    case ClearTimersEvent => s.(store := ClearTimers(s.store))
    case _ => s
  }

  // Keys that end or start one.
  function Command(s: Session, e: Event): Session {
    match e
    case RejectEvent(newId) => RejectIncoming(s, newId)
    case EndThisEvent(st, now, newId, admitted) => EndThisCall(s, st, now, newId, admitted)
    case EndEvent(now, newId) => EndCall(s, now, newId, true)
    case EndAllEvent(now, newId) => EndAllCalls(s, now, newId)
    case CancelEvent(st, now, admitted) => CancelNewCall(s, st, now, admitted)
    case DialEvent(d) => StartOutgoing(s, d)
    case DialSecondEvent(d) => DialSecond(s, d)
    case _ => s
  }

  predicate IsCommand(e: Event) {
    e.RejectEvent? || e.EndThisEvent? || e.EndEvent? || e.EndAllEvent? || e.CancelEvent? ||
    e.DialEvent? || e.DialSecondEvent?
  }

  function Step(s: Session, e: Event): Session {
    if e.PollEvent? then Poll(s, e.inp)
    else if IsCommand(e) then Command(s, e)
    else Press(s, e)
  }

  function RunEvents(s: Session, es: seq<Event>): Session
    decreases |es|
  {
    if es == [] then s else RunEvents(Step(s, es[0]), es[1..])
  }

  predicate AllOffered(s: Session, es: seq<Event>)
    decreases |es|
  {
    es == [] || (Offered(s, es[0]) && AllOffered(Step(s, es[0]), es[1..]))
  }

  // --- Events on a clock that never wraps ---

  datatype Timed = Timed(e: Event, t: int)

  // Events that carry the clock carry it wrapped.
  predicate OnTime(x: Timed) {
    match x.e
    case PollEvent(inp) => inp.now == Wrap(x.t)
    case AnswerEvent(now, _) => now == Wrap(x.t)
    case EndThisEvent(_, now, _, _) => now == Wrap(x.t)
    case EndEvent(now, _) => now == Wrap(x.t)
    case EndAllEvent(now, _) => now == Wrap(x.t)
    case CancelEvent(_, now, _) => now == Wrap(x.t)
    case DialEvent(d) => d.now == Wrap(x.t)
    case DialSecondEvent(d) => d.now == Wrap(x.t)
    case _ => true
  }

  predicate InOrder(t: int, xs: seq<Timed>)
    decreases |xs|
  {
    xs == [] || (t <= xs[0].t && OnTime(xs[0]) && InOrder(xs[0].t, xs[1..]))
  }

  function RunTimed(s: Session, xs: seq<Timed>): Session
    decreases |xs|
  {
    if xs == [] then s else RunTimed(Step(s, xs[0].e), xs[1..])
  }

  // --- The duration totals, through every event ---

  predicate TotalsKept(s: Session, t: Session) {
    TotalsMatch(s.store) ==> TotalsMatch(t.store)
  }

  lemma ReconcileKeepsTotals(s: Session, inp: PollInput, surface: bool)
    ensures TotalsKept(s, Reconcile(s, inp, surface))
  {}

  lemma ResolveKeepsTotals(s: Session, inp: PollInput)
    ensures TotalsKept(s, WaitingGone(s, inp))
    ensures TotalsKept(s, HandoffToIncoming(s, inp)) && TotalsKept(s, HandoffToConnected(s, inp))
  {}

  lemma WaitingKeepsTotals(s: Session, inp: PollInput)
    ensures TotalsKept(s, WaitingStage(s, inp).s)
  {
    ResolveKeepsTotals(s.(asked := s.asked.(release := false, releaseId := 0)), inp);
  }

  lemma FailureKeepsTotals(s: Session, inp: PollInput, surface: bool)
    ensures TotalsKept(s, FailureStage(s, inp, surface).s)
  {}

  lemma RingingKeepsTotals(s: Session, inp: PollInput)
    ensures TotalsKept(s, RingingStage(s, inp).s)
  {}

  lemma ActiveKeepsTotals(s: Session, inp: PollInput)
    ensures TotalsKept(s, ActiveStage(s, inp).s)
  {}

  lemma IdleKeepsTotals(s: Session, inp: PollInput, surface: bool, previous: CallState)
    ensures TotalsKept(s, IdleStage(s, inp, surface, previous).s)
  {}

  lemma ResultKeepsTotals(s: Session, inp: PollInput, surface: bool)
    ensures TotalsKept(s, ResultStage(s, inp, surface))
  {}

  lemma PollKeepsTotals(s: Session, inp: PollInput)
    ensures TotalsKept(s, Poll(s, inp))
  {
    var surface, previous := CallSurface(s.route), s.seen.state;
    ReconcileKeepsTotals(s, inp, surface);
    var r := Reconcile(s, inp, surface);
    WaitingKeepsTotals(r, inp);
    var w := WaitingStage(r, inp).s;
    FailureKeepsTotals(w, inp, surface);
    RingingKeepsTotals(w, inp);
    ActiveKeepsTotals(w, inp);
    IdleKeepsTotals(w, inp, surface, previous);
    ResultKeepsTotals(IdleStage(w, inp, surface, previous).s, inp, surface);
  }

  lemma EndKeepsTotals(s: Session, now: u32, newId: RecordId)
    ensures TotalsKept(s, EndCall(s, now, newId, true)) && TotalsKept(s, EndAllCalls(s, now, newId))
  {}

  lemma EndThisKeepsTotals(s: Session, st: Status, now: u32, newId: RecordId, admitted: bool)
    ensures TotalsKept(s, EndThisCall(s, st, now, newId, admitted))
  {
    EndKeepsTotals(s, now, newId);
  }

  lemma DialKeepsTotals(s: Session, d: DialInput)
    ensures TotalsKept(s, StartOutgoing(s, d)) && TotalsKept(s, DialSecond(s, d))
  {}

  lemma RejectKeepsTotals(s: Session, newId: RecordId)
    ensures TotalsKept(s, RejectIncoming(s, newId))
  {}

  lemma CancelKeepsTotals(s: Session, st: Status, now: u32, admitted: bool)
    ensures TotalsKept(s, CancelNewCall(s, st, now, admitted))
  {}

  lemma PressKeepsTotals(s: Session, e: Event)
    ensures TotalsKept(s, Press(s, e))
  {}

  lemma CommandKeepsTotals(s: Session, e: Event)
    ensures TotalsKept(s, Command(s, e))
  {
    match e
    case RejectEvent(newId) => RejectKeepsTotals(s, newId);
    case EndThisEvent(st, now, newId, admitted) => EndThisKeepsTotals(s, st, now, newId, admitted);
    case EndEvent(now, newId) => EndKeepsTotals(s, now, newId);
    case EndAllEvent(now, newId) => EndKeepsTotals(s, now, newId);
    case DialEvent(d) => DialKeepsTotals(s, d);
    case DialSecondEvent(d) => DialKeepsTotals(s, d);
    case CancelEvent(st, now, admitted) => CancelKeepsTotals(s, st, now, admitted);
    case _ =>
  }

  lemma StepKeepsTotals(s: Session, e: Event)
    ensures TotalsKept(s, Step(s, e))
  {
    if e.PollEvent? {
      PollKeepsTotals(s, e.inp);
    } else {
      PressKeepsTotals(s, e);
      CommandKeepsTotals(s, e);
    }
  }

  // Over any run ALL, RECEIVED and DIALLED stay the saturated sums of the charges
  // made since the timers were last cleared.
  lemma {:induction false} RunKeepsTotals(s: Session, es: seq<Event>)
    requires TotalsMatch(s.store)
    ensures TotalsMatch(RunEvents(s, es).store)
    decreases |es|
  {
    if es != [] {
      StepKeepsTotals(s, es[0]);
      RunKeepsTotals(Step(s, es[0]), es[1..]);
    }
  }
}
