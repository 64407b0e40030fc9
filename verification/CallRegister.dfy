// What the call register is owed: the entry of every caller who was answered, rang out
// or was turned away, poll by poll and over whole runs.

module CallRegister {
  import opened Timebase
  import opened CallTypes
  import opened CallSession
  import opened CallEvents
  import opened CallWaiting
  import opened CallIdentity

  // A caller rings, or was answered and is not connected yet.
  predicate Unanswered(s: Session) {
    s.incoming.active && !s.incoming.recorded
  }

  function AsReceived(leg: Leg, caller: nat): seq<Entry> {
    if leg.number == "" then [] else [Entry(Received, leg.number, leg.name, caller)]
  }

  function AsMissed(leg: Leg, caller: nat): seq<Entry> {
    [Entry(Missed, leg.number, leg.name, caller)]
  }

  // --- The poll that connects the caller, or finds nobody there ---

  // An answered caller is connected at once from the ringing screen; from a call screen
  // it is once the call has been active for 250 ms, unless a failure is due first.
  predicate Connects(s: Session, inp: PollInput) {
    && inp.status.callState == Active
    && ((s.route == IncomingCall && s.incoming.answerPending) ||
        (s.route == Call && s.setup.activeSeenMs != 0 &&
         TimeDiff(inp.now, Add32(s.setup.activeSeenMs, 250)) >= 0 &&
         !(s.setup.failureMs != 0 && TimeDiff(inp.now, s.setup.failureMs) >= 0)))
  }

  predicate RingsOut(s: Session, inp: PollInput) {
    s.route == IncomingCall && inp.status.callState == Idle && !s.incoming.answerPending
  }

  // The caller is on display, entered and charged as received.
  predicate ConnectedAsReceived(s: Session, inp: PollInput, r: Session) {
    var leg, shown := s.slots.primary, r.slots.primary;
    && r.phase == Live && r.route == Call && !r.localHangup && r.setup.failureMs == 0
    && r.incoming.active && r.incoming.recorded && r.incoming.caller == s.incoming.caller
    && shown.number == leg.number && shown.name == leg.name && shown.list == Received
    && (shown.recordId != 0 <==> leg.number != "")
    && r.slots.connectedMs == (if inp.now == 0 then 1 else inp.now)
    && r.store.register == s.store.register + AsReceived(leg, s.incoming.caller)
  }

  predicate CountedMissed(s: Session, r: Session) {
    && !r.incoming.active && r.phase == Setup && r.slots == BLANK_SLOTS && r.route == Elsewhere
    && r.store.register == s.store.register + AsMissed(s.slots.primary, s.incoming.caller)
    && r.missedCount == (if s.missedCount == 255 then 255 else s.missedCount + 1)
  }

  predicate IncomingFate(s: Session, inp: PollInput, r: Session) {
    if Connects(s, inp) then ConnectedAsReceived(s, inp, r)
    else if RingsOut(s, inp) then CountedMissed(s, r)
    else r.phase == Setup && r.store.register == s.store.register
  }

  // The stages up to the connecting one leave a ringing call alone.
  lemma ReconcileRinging(s: Session, inp: PollInput, surface: bool)
    requires Tidy(s) && Unanswered(s)
    ensures var r := Reconcile(s, inp, surface);
      && r.store == s.store && r.incoming == s.incoming && r.slots == s.slots && r.setup == s.setup
      && r.phase == s.phase == Setup && r.route == s.route && r.waiting == s.waiting && !r.waiting.pending
      && r.missedCount == s.missedCount && r.localHangup == s.localHangup
  {}

  lemma ActiveFate(s: Session, inp: PollInput)
    requires Unanswered(s) && s.phase == Setup && !s.slots.secondary
    requires !(s.route == Call && s.setup.failureMs != 0 && TimeDiff(inp.now, s.setup.failureMs) >= 0)
    ensures var o := ActiveStage(s, inp);
      if Connects(s, inp) then o.Done? && ConnectedAsReceived(s, inp, o.s)
      else o.s.phase == Setup && o.s.store.register == s.store.register && (o.More? ==> o.s == s)
  {}

  lemma IdleFate(s: Session, inp: PollInput, surface: bool, previous: CallState)
    requires Unanswered(s) && s.phase == Setup
    ensures var o := IdleStage(s, inp, surface, previous);
      if RingsOut(s, inp) then o.Done? && CountedMissed(s, o.s)
      else o.s.phase == Setup && o.s.store.register == s.store.register
  {}

  lemma FailureFate(s: Session, inp: PollInput, surface: bool)
    requires s.phase == Setup && !s.slots.secondary
    ensures var o := FailureStage(s, inp, surface);
      && o.s.phase == Setup && o.s.store.register == s.store.register && (o.More? ==> o.s == s)
      && (o.Done? <==> surface && s.setup.failureMs != 0 && TimeDiff(inp.now, s.setup.failureMs) >= 0)
  {}

  lemma RingingFate(s: Session, inp: PollInput)
    requires s.phase == Setup
    ensures var o := RingingStage(s, inp);
      && o.s.phase == Setup && o.s.store.register == s.store.register && (o.More? ==> o.s == s)
      && (o.Done? ==> inp.status.callState == Ringing)
  {}

  lemma ResultFate(s: Session, inp: PollInput, surface: bool)
    requires s.phase == Setup
    ensures var r := ResultStage(s, inp, surface); r.phase == Setup && r.store.register == s.store.register
  {}

  lemma ConcludeFate(s: Session, inp: PollInput, surface: bool, previous: CallState)
    requires Unanswered(s) && s.phase == Setup && !s.slots.secondary && !s.waiting.pending
    requires surface == CallSurface(s.route)
    ensures IncomingFate(s, inp, Conclude(s, inp, surface, previous))
  {
    assert WaitingStage(s, inp) == More(s);
    FailureFate(s, inp, surface);
    RingingFate(s, inp);
    if FailureStage(s, inp, surface).More? {
      ActiveFate(s, inp);
      IdleFate(s, inp, surface, previous);
      ResultFate(IdleStage(s, inp, surface, previous).s, inp, surface);
    }
  }

  lemma LaterFate(s: Session, q: Session, inp: PollInput, r: Session)
    requires q.store.register == s.store.register && q.incoming == s.incoming && q.slots == s.slots
    requires q.setup == s.setup && q.route == s.route && q.missedCount == s.missedCount
    requires IncomingFate(q, inp, r)
    ensures IncomingFate(s, inp, r)
  {}

  // A poll connects a caller who was answered exactly when the network says so, and then
  // enters the call as received; a caller who stops ringing unanswered is entered as
  // missed and the session ends; any other poll enters nothing.
  lemma IncomingSettled(s: Session, inp: PollInput)
    requires Tidy(s) && Unanswered(s)
    ensures IncomingFate(s, inp, Poll(s, inp))
  {
    var surface := CallSurface(s.route);
    ReconcileRinging(s, inp, surface);
    var q := Reconcile(s, inp, surface);
    ConcludeFate(q, inp, surface, s.seen.state);
    LaterFate(s, q, inp, Poll(s, inp));
  }

  // --- Where callers come from ---

  lemma ReconcileOwesNothing(s: Session, inp: PollInput, surface: bool)
    ensures var r := Reconcile(s, inp, surface);
      && r.store.register == s.store.register && r.incoming == s.incoming && r.waiting == s.waiting
      && r.route == s.route
  {}

  // A ring opens the ringing screen for a new caller, under the number and name reported.
  lemma RingPresents(s: Session, inp: PollInput)
    requires inp.status.callState == Ringing && !s.localHangup && s.route != Call && s.route != IncomingCall
    requires !inp.status.waitingCall && !s.waiting.pending && !inp.status.secondHeld
    requires s.phase == Live || s.setup.failureMs == 0
    ensures var r, st := Poll(s, inp), inp.status;
      && r.route == IncomingCall && r.phase == Setup && Unanswered(r) && !r.incoming.answerPending
      && r.slots.primary.number == st.incomingNumber && r.slots.primary.name == inp.contactName
      && r.slots.primary.recordId == 0 && r.slots.held == BLANK_LEG && !r.slots.secondary
      && r.incoming.withheld == st.withheld && r.incoming.diverted == st.diverted
      && r.incoming.caller == s.nextCaller && r.nextCaller == s.nextCaller + 1
      && r.store.register == s.store.register
  {
    var surface := CallSurface(s.route);
    ReconcileOwesNothing(s, inp, surface);
    var q := Reconcile(s, inp, surface);
    ReconcileLive(s, inp, surface);
    assert Poll(s, inp) == OpenNewIncoming(q, inp);
  }

  // While it rings the same caller stays, its number and name corrected by what is
  // reported later.
  lemma RingRefreshes(s: Session, inp: PollInput)
    requires Tidy(s) && Unanswered(s) && s.route == IncomingCall
    requires inp.status.callState == Ringing && !s.localHangup
    ensures var r, st, leg := Poll(s, inp), inp.status, s.slots.primary;
      && r.route == IncomingCall && Unanswered(r) && r.incoming.caller == s.incoming.caller
      && r.incoming.answerPending == s.incoming.answerPending && r.store == s.store
      && r.incoming.withheld == st.withheld && r.incoming.diverted == st.diverted
      && r.slots.primary == (if st.incomingNumber == "" || st.incomingNumber == leg.number then leg
                             else leg.(number := st.incomingNumber, name := inp.contactName))
  {
    ReconcileRinging(s, inp, false);
  }

  // The caller waits under the number and name reported, as a new one exactly when there
  // was none or these have changed.
  predicate WaitsAs(s: Session, inp: PollInput, r: Session) {
    var w, st := s.waiting, inp.status;
    var same := w.pending && w.number == st.incomingNumber && w.name == inp.contactName;
    && r.waiting.pending && r.waiting.number == st.incomingNumber && r.waiting.name == inp.contactName
    && r.waiting.withheld == st.withheld && r.waiting.diverted == st.diverted
    && r.waiting.recorded == (same && w.recorded)
    && r.waiting.caller == (if same then w.caller else s.nextCaller)
    && r.nextCaller == (if same then s.nextCaller else s.nextCaller + 1)
    && r.route == (if same then s.route else Call)
    && r.phase == s.phase && r.store.register == s.store.register
  }

  // Only the identity of a caller changes when it is tied to a leg.
  lemma SameCaller(w: Waiting, snap: Snapshot)
    ensures var r := CaptureWaiting(w, snap);
      && r.pending == w.pending && r.number == w.number && r.name == w.name
      && r.withheld == w.withheld && r.diverted == w.diverted && r.recorded == w.recorded && r.caller == w.caller
  {}

  lemma PresentedAs(s: Session, inp: PollInput)
    ensures WaitsAs(s, inp, PresentWaiting(s, inp).s)
  {
    SameCaller(s.waiting, inp.snapshot);
    var c := s.(waiting := CaptureWaiting(s.waiting, inp.snapshot));
    SameCaller(OpenWaiting(c, inp).waiting, inp.snapshot);
  }

  lemma ReconcileLive(s: Session, inp: PollInput, surface: bool)
    ensures var q := Reconcile(s, inp, surface);
      && q.phase == s.phase && q.nextCaller == s.nextCaller
      && (inp.status.waitingCall ==> q.asked.action == s.asked.action)
      && q.setup.failureMs == s.setup.failureMs && q.localHangup == s.localHangup
  {}

  // So is a caller beside a live call shown by any poll.
  lemma WaitPresents(s: Session, inp: PollInput)
    requires s.phase == Live && s.route != IncomingCall && inp.status.callState == Active
    requires inp.status.waitingCall && !s.asked.action
    ensures WaitsAs(s, inp, Poll(s, inp))
  {
    var surface := CallSurface(s.route);
    ReconcileOwesNothing(s, inp, surface);
    ReconcileLive(s, inp, surface);
    var q := Reconcile(s, inp, surface);
    PresentStands(q, inp, surface, s.seen.state);
    PresentedAs(q, inp);
    WaitsLater(s, q, inp, Poll(s, inp));
  }

  lemma WaitsLater(s: Session, q: Session, inp: PollInput, r: Session)
    requires q.waiting == s.waiting && q.nextCaller == s.nextCaller && q.phase == s.phase && q.route == s.route
    requires q.store.register == s.store.register && WaitsAs(q, inp, r)
    ensures WaitsAs(s, inp, r)
  {}

  lemma PresentStands(s: Session, inp: PollInput, surface: bool, previous: CallState)
    requires s.phase == Live && s.route != IncomingCall && inp.status.callState == Active
    requires inp.status.waitingCall && !s.asked.action
    ensures Conclude(s, inp, surface, previous) == PresentWaiting(s, inp).s
  {}

  // --- The answer key ---

  // A caller answered by key is connected by the first poll that finds the call active,
  // and one that finds it gone enters nothing.
  lemma AnswerKeyConnects(s: Session, now: u32, inp: PollInput)
    requires Tidy(s) && Unanswered(s) && s.route == IncomingCall && !s.incoming.answerPending
    ensures var a := AnswerIncoming(s, now, true);
      && a.incoming == s.incoming.(answerPending := true) && a.setup == s.setup.(startedMs := now) && a.resultArmed
      && (inp.status.callState == Active ==> ConnectedAsReceived(s, inp, Poll(a, inp)))
      && (inp.status.callState == Idle ==> Poll(a, inp).store.register == s.store.register)
  {
    IncomingSettled(AnswerIncoming(s, now, true), inp);
  }

  // --- Every step ---

  // What the register is owed for this event.
  function Owed(s: Session, e: Event): seq<Entry> {
    match e
    case PollEvent(inp) =>
      var w := s.waiting;
      if w.pending && !inp.status.waitingCall then
        if (inp.status.secondHeld && !s.slots.secondary) || Talks(w, inp.snapshot) then Answered(w)
        else if LeftUs(w, inp.snapshot) then [Entry(Missed, w.number, w.name, w.caller)]
        else []
      else if !Unanswered(s) then []
      else if Connects(s, inp) then AsReceived(s.slots.primary, s.incoming.caller)
      else if RingsOut(s, inp) then AsMissed(s.slots.primary, s.incoming.caller)
      else []
    case RejectEvent(_) => if Unanswered(s) then AsMissed(s.slots.primary, s.incoming.caller) else []
    case _ => []
  }

  // A status that shows a second party held shows an active one, as every published row.
  predicate Told(e: Event) {
    e.PollEvent? && e.inp.status.secondHeld ==> e.inp.status.callState == Active
  }

  // Nobody waits or rings: nothing is entered.
  lemma WaitingOwesNothing(s: Session, inp: PollInput)
    requires inp.status.waitingCall || !s.waiting.pending
    ensures var o := WaitingStage(s, inp);
      && o.s.store.register == s.store.register && o.s.incoming == s.incoming
      && (o.s.route == IncomingCall ==> s.route == IncomingCall)
  {}

  lemma StagesOweNothing(s: Session, inp: PollInput, surface: bool, previous: CallState)
    requires !Unanswered(s) && (s.route == IncomingCall ==> s.incoming.active)
    ensures FailureStage(s, inp, surface).s.store.register == s.store.register
    ensures FailureStage(s, inp, surface).More? ==> FailureStage(s, inp, surface).s == s
    ensures RingingStage(s, inp).s.store.register == s.store.register
    ensures RingingStage(s, inp).More? ==> RingingStage(s, inp).s == s
    ensures IdleStage(s, inp, surface, previous).s.store.register == s.store.register
  {}

  lemma SecondOwesNothing(s: Session, inp: PollInput)
    ensures AwaitSecond(s, inp).store.register == s.store.register
  {}

  lemma ActiveOwesNothing(s: Session, inp: PollInput)
    requires !Unanswered(s)
    ensures ActiveStage(s, inp).s.store.register == s.store.register
    ensures ActiveStage(s, inp).More? ==> ActiveStage(s, inp).s == s
  {
    SecondOwesNothing(s, inp);
    assert RecordAnswered(Connect(s, inp.now), inp.newRecordId) == Connect(s, inp.now);
  }

  lemma ResultOwesNothing(s: Session, inp: PollInput, surface: bool)
    ensures ResultStage(s, inp, surface).store.register == s.store.register
  {}

  lemma ConcludeOwesNothing(s: Session, inp: PollInput, surface: bool, previous: CallState)
    requires !Unanswered(s) && (s.route == IncomingCall ==> s.incoming.active)
    requires inp.status.waitingCall || !s.waiting.pending
    ensures Conclude(s, inp, surface, previous).store.register == s.store.register
  {
    WaitingOwesNothing(s, inp);
    var w := WaitingStage(s, inp).s;
    StagesOweNothing(w, inp, surface, previous);
    ActiveOwesNothing(w, inp);
    ResultOwesNothing(IdleStage(w, inp, surface, previous).s, inp, surface);
  }

  lemma PollOwes(s: Session, inp: PollInput)
    requires Tidy(s) && Told(PollEvent(inp))
    ensures Poll(s, inp).store.register == s.store.register + Owed(s, PollEvent(inp))
  {
    if s.waiting.pending && !inp.status.waitingCall {
      CallerSettledByPoll(s, inp);
      OneFate(s.waiting, inp.snapshot);
    } else if Unanswered(s) {
      IncomingSettled(s, inp);
    } else {
      var surface := CallSurface(s.route);
      ReconcileOwesNothing(s, inp, surface);
      ConcludeOwesNothing(Reconcile(s, inp, surface), inp, surface, s.seen.state);
    }
  }

  lemma KeyOwes(s: Session, e: Event)
    requires Tidy(s) && Offered(s, e) && !e.PollEvent? && !IsCommand(e)
    ensures Step(s, e).store.register == s.store.register + Owed(s, e)
  {}

  lemma EndOwesNothing(s: Session, now: u32, newId: RecordId)
    ensures EndCall(s, now, newId, true).store.register == s.store.register
    ensures EndAllCalls(s, now, newId).store.register == s.store.register
  {}

  lemma RejectOwes(s: Session, newId: RecordId)
    ensures RejectIncoming(s, newId).store.register ==
      s.store.register + if s.incoming.recorded then [] else AsMissed(s.slots.primary, s.incoming.caller)
  {}

  lemma DialOwesNothing(s: Session, d: DialInput)
    ensures StartOutgoing(s, d).store.register == s.store.register
    ensures DialSecond(s, d).store.register == s.store.register
  {}

  lemma CancelOwesNothing(s: Session, st: Status, now: u32, admitted: bool)
    ensures CancelNewCall(s, st, now, admitted).store.register == s.store.register
  {}

  lemma EndKeysOweNothing(s: Session, e: Event)
    requires e.EndThisEvent? || e.EndEvent? || e.EndAllEvent?
    ensures Command(s, e).store.register == s.store.register
  {
    EndOwesNothing(s, e.now, e.newId);
  }

  lemma CommandOwes(s: Session, e: Event)
    requires Tidy(s) && Offered(s, e) && IsCommand(e)
    ensures Step(s, e).store.register == s.store.register + Owed(s, e)
  {
    match e
    case RejectEvent(newId) => RejectOwes(s, newId);
    case CancelEvent(st, now, admitted) => CancelOwesNothing(s, st, now, admitted);
    case DialEvent(d) => DialOwesNothing(s, d);
    case DialSecondEvent(d) => DialOwesNothing(s, d);
    case _ => EndKeysOweNothing(s, e);
  }

  // Every poll and key enters exactly what is owed for it.
  lemma StepOwes(s: Session, e: Event)
    requires Tidy(s) && Offered(s, e) && Told(e)
    ensures Step(s, e).store.register == s.store.register + Owed(s, e)
  {
    if e.PollEvent? {
      PollOwes(s, e.inp);
    } else if IsCommand(e) {
      CommandOwes(s, e);
    } else {
      KeyOwes(s, e);
    }
  }

  // --- Whole runs ---

  function OwedInRun(s: Session, es: seq<Event>): seq<Entry>
    decreases |es|
  {
    if es == [] then [] else Owed(s, es[0]) + OwedInRun(Step(s, es[0]), es[1..])
  }

  lemma Regroup(x: seq<Entry>, y: seq<Entry>, z: seq<Entry>)
    ensures (x + y) + z == x + (y + z)
  {}

  // Over any run the register grows by exactly the entries owed: one, received, for each
  // caller who was connected with a known number, one, missed, for each who rang out, was
  // rejected or gave up waiting, and no other; and no presentation has two.
  lemma {:induction false} RunRegister(s: Session, es: seq<Event>)
    requires Tidy(s) && AllOffered(s, es) && forall e | e in es :: Told(e)
    ensures RunEvents(s, es).store.register == s.store.register + OwedInRun(s, es)
    ensures OnceEach(s.store.register + OwedInRun(s, es), RunEvents(s, es).nextCaller)
    decreases |es|
  {
    if es != [] {
      StepOwes(s, es[0]);
      StepTidy(s, es[0]);
      RunRegister(Step(s, es[0]), es[1..]);
      Regroup(s.store.register, Owed(s, es[0]), OwedInRun(Step(s, es[0]), es[1..]));
    }
  }
}
