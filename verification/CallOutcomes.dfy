// What each key asks of the modem and makes of the session, how a set-up ends, and what
// a call that came to nothing is entered as.

module CallOutcomes {
  import opened Timebase
  import opened CallTypes
  import opened CallStore
  import opened CallSession
  import opened CallEvents
  import opened CallRegister

  // --- Requests ---

  function When(c: bool, r: Request): seq<Request> {
    if c then [r] else []
  }

  // A party other than the one the dial started from has become active.
  predicate TakenOver(s: Session, st: Status) {
    s.setup.newActiveRef != 0 && st.callState == Active && st.activeId != 0 && st.activeId != s.setup.newActiveRef
  }

  // The requests a key leads to, with the leg each of them is about: answering is asked
  // once, only the active leg is ever released by its id, and a set-up is abandoned only
  // once any party that took it over can be released too.
  function Wanted(s: Session, e: Event): seq<Request> {
    match e
    case AnswerEvent(_, admitted) => When(admitted && !s.incoming.answerPending, Answer)
    case RejectEvent(_) => [Hangup]
    case AnswerWaitingEvent(admitted) => When(admitted && s.waiting.pending, WaitingAnswer)
    case RejectWaitingEvent => When(s.waiting.pending, WaitingReject)
    case SwapEvent => When(s.slots.secondary, SwapRequest)
    case HoldEvent => [ManualHold]
    case EndThisEvent(st, _, _, admitted) =>
      if s.slots.secondary then [ReleaseActive]
      else if !s.waiting.pending then [Hangup]
      else When(admitted && !s.asked.release && st.waitingCall && st.activeId != 0, ReleaseLeg(st.activeId))
    case EndEvent(_, _) => [Hangup]
    case EndAllEvent(_, _) => [Hangup] + When(s.waiting.pending, WaitingReject)
    case CancelEvent(st, _, admitted) =>
      When(admitted && TakenOver(s, st), ReleaseLeg(st.activeId)) + When(admitted || !TakenOver(s, st), Abandon)
    case DialEvent(d) => When(d.number != "" && d.simReady && d.status.registered && d.admitted, Dial(d.number))
    case DialSecondEvent(d) => When(d.number != "" && d.simReady && d.status.registered && d.admitted, Dial(d.number))
    case _ => []
  }

  lemma CancelWanted(s: Session, st: Status, now: u32, admitted: bool)
    ensures CancelNewCall(s, st, now, admitted).requests == s.requests + Wanted(s, CancelEvent(st, now, admitted))
  {}

  lemma EndWanted(s: Session, now: u32, newId: RecordId)
    ensures EndCall(s, now, newId, true).requests == s.requests + [Hangup]
  {}

  lemma EndAllWanted(s: Session, now: u32, newId: RecordId)
    ensures EndAllCalls(s, now, newId).requests == s.requests + Wanted(s, EndAllEvent(now, newId))
  {
    EndWanted(s, now, newId);
    assert s.requests + [Hangup] + [WaitingReject] == s.requests + ([Hangup] + [WaitingReject]);
  }

  lemma EndThisWanted(s: Session, st: Status, now: u32, newId: RecordId, admitted: bool)
    ensures EndThisCall(s, st, now, newId, admitted).requests ==
            s.requests + Wanted(s, EndThisEvent(st, now, newId, admitted))
  {
    EndWanted(s, now, newId);
  }

  lemma DialWanted(s: Session, d: DialInput)
    ensures StartOutgoing(s, d).requests == s.requests + Wanted(s, DialEvent(d))
    ensures DialSecond(s, d).requests == s.requests + Wanted(s, DialEvent(d))
  {}

  lemma RejectWanted(s: Session, newId: RecordId)
    ensures RejectIncoming(s, newId).requests == s.requests + [Hangup]
  {}

  lemma PressWanted(s: Session, e: Event)
    requires !IsCommand(e) && !e.PollEvent?
    ensures Press(s, e).requests == s.requests + Wanted(s, e)
  {}

  // Every key asks for exactly that, in that order.
  lemma KeyAsksExactly(s: Session, e: Event)
    requires !e.PollEvent?
    ensures Step(s, e).requests == s.requests + Wanted(s, e)
  {
    match e
    case RejectEvent(newId) => RejectWanted(s, newId);
    case EndThisEvent(st, now, newId, admitted) => EndThisWanted(s, st, now, newId, admitted);
    case EndEvent(now, newId) => EndWanted(s, now, newId);
    case EndAllEvent(now, newId) => EndAllWanted(s, now, newId);
    case CancelEvent(st, now, admitted) => CancelWanted(s, st, now, admitted);
    case DialEvent(d) => DialWanted(s, d);
    case DialSecondEvent(d) => DialWanted(s, d);
    case _ => PressWanted(s, e);
  }

  // Keys whose effect is left to the network.
  predicate LeftToNetwork(e: Event) {
    e.AnswerWaitingEvent? || e.RejectWaitingEvent? || e.SwapEvent? || e.HoldEvent?
  }

  // They bring back the call screen and move no party; one that asks for nothing does
  // nothing.
  lemma KeyLeavesParties(s: Session, e: Event)
    requires LeftToNetwork(e)
    ensures var r := Step(s, e);
      if Wanted(s, e) == [] then r == s
      else
        && r.route == Call && r.slots == s.slots && r.waiting == s.waiting && r.incoming == s.incoming
        && r.store == s.store && r.phase == s.phase && r.setup == s.setup
  {}

  // --- Calls that came to nothing ---

  // What the entry of a failed call says of why.
  function Cause(result: CallResult, registered: bool): Reason {
    match result
    case NoResult => NoReason
    case Connected => NoReason
    case NoCarrier => if registered then WasUnreachable else HadNoNetwork
    case Busy => WasBusy
    case NoAnswer => WasNotAnswered
    case NoDialtone => HadNoNetwork
  }

  function ClosedWith(leg: Leg, seconds: u32, reason: Reason): seq<Closing> {
    if leg.recordId == 0 then [] else [Closing(leg.list, leg.recordId, seconds, reason)]
  }

  predicate Fails(result: CallResult) {
    result != NoResult && result != Connected
  }

  // A sole call being set up, on a call screen, that was never connected.
  predicate SettingUp(s: Session) {
    && s.phase == Setup && CallSurface(s.route) && s.slots.connectedMs == 0
    && !s.slots.secondary && !s.waiting.pending
  }

  // The result is shown, the entry closed with its cause, and nothing is charged.
  predicate ShownFailed(s: Session, r: Session, cause: Reason) {
    && r.phase == Setup && r.route == Elsewhere && r.slots == BLANK_SLOTS && !r.incoming.active
    && r.requests == s.requests && r.store.register == s.store.register
    && r.store.totals == s.store.totals && r.store.ledger == s.store.ledger
    && r.store.closings == s.store.closings + ClosedWith(s.slots.primary, 0, cause)
  }

  predicate StillSettingUp(s: Session, r: Session) {
    r.phase == Setup && r.route == s.route && r.slots == s.slots && r.store == s.store && r.requests == s.requests
  }

  lemma CauseOf(result: CallResult, registered: bool)
    ensures ReasonFor(result, registered) == Cause(result, registered)
  {}

  lemma ReconcileSettingUp(s: Session, inp: PollInput, surface: bool)
    requires SettingUp(s)
    ensures var q := Reconcile(s, inp, surface);
      && SettingUp(q) && StillSettingUp(s, q) && q.setup == s.setup && q.incoming == s.incoming
      && (surface ==> q.resultArmed == Taken(s, inp.status))
  {}

  lemma EndFails(s: Session, now: u32, reason: Reason)
    requires SettingUp(s)
    ensures ShownFailed(s, EndWithResult(s, now, reason), reason)
  {}

  // The network has taken the set-up up, now or before.
  predicate Taken(s: Session, st: Status) {
    s.resultArmed || st.callState == Dialing || st.callState == Answering || st.callState == Active
  }

  predicate EndsSetup(st: Status, seen: CallState) {
    Fails(st.lastResult) || (st.callState == CallState.Idle && (seen == Active || seen == Answering || seen == Dialing))
  }

  // A set-up the network has taken up fails when a failure is reported, or when the modem
  // falls idle after the call was seen; its entry is closed with the cause reported.
  lemma FailedCallShown(s: Session, inp: PollInput)
    requires SettingUp(s) && s.setup.failureMs == 0
    requires inp.status.callState != Active && inp.status.callState != Ringing
    ensures var st, r := inp.status, Poll(s, inp);
      if Taken(s, st) && EndsSetup(st, s.seen.state) then ShownFailed(s, r, Cause(st.lastResult, st.registered))
      else StillSettingUp(s, r) && r.resultArmed == Taken(s, st)
  {
    var surface := CallSurface(s.route);
    ReconcileSettingUp(s, inp, surface);
    var q := Reconcile(s, inp, surface);
    CauseOf(inp.status.lastResult, inp.status.registered);
    ConcludeSettingUp(q, inp, surface, s.seen.state);
  }

  lemma ConcludeSettingUp(s: Session, inp: PollInput, surface: bool, seen: CallState)
    requires SettingUp(s) && s.setup.failureMs == 0 && surface
    requires inp.status.callState != Active && inp.status.callState != Ringing
    ensures var st, r := inp.status, Conclude(s, inp, surface, seen);
      if s.resultArmed && EndsSetup(st, seen) then ShownFailed(s, r, ReasonFor(st.lastResult, st.registered))
      else StillSettingUp(s, r) && r.resultArmed == s.resultArmed
  {
    var st := inp.status;
    EndFails(s, inp.now, ReasonFor(st.lastResult, st.registered));
    EndFails(s.(localHangup := false), inp.now, ReasonFor(st.lastResult, st.registered));
    assert WaitingStage(s, inp) == More(s) && FailureStage(s, inp, surface) == More(s);
    assert RingingStage(s, inp) == More(s) && ActiveStage(s, inp) == More(s);
  }

  // A sole call on the call screen is connected by a poll that finds it active 250 ms
  // after the first that did, which keeps its own time.
  lemma ActiveConnects(s: Session, inp: PollInput)
    requires SettingUp(s) && s.route == Call && s.setup.failureMs == 0 && inp.status.callState == Active
    ensures var r, since := Poll(s, inp), s.setup.activeSeenMs;
      if since == 0 then StillSettingUp(s, r) && r.setup == s.setup.(activeSeenMs := inp.now) && r.resultArmed
      else if TimeDiff(inp.now, Add32(since, 250)) < 0 then StillSettingUp(s, r) && r.setup == s.setup
      else
        && r.phase == Live && r.route == Call && r.resultArmed && !r.localHangup && r.requests == s.requests
        && r.slots.connectedMs == ArmStamp(inp.now) && !r.slots.secondary
        && (!Unanswered(s) ==> r.slots == s.slots.(connectedMs := ArmStamp(inp.now)) && r.store == s.store)
  {
    ReconcileSettingUp(s, inp, true);
    var q := Reconcile(s, inp, true);
    assert WaitingStage(q, inp) == More(q);
    assert Poll(s, inp) == ActiveStage(q, inp).s;
  }

  // --- A dial the phone cannot place ---

  function DialDelay(d: DialInput): nat {
    if d.simReady then 1200 else 480
  }

  // A deadline word of 0 is kept a millisecond later.
  function DialDue(d: DialInput, u: int): int {
    var due := u + DialDelay(d);
    if Wrap(due) == 0 then due + 1 else due
  }

  lemma DueWord(d: DialInput, u: int)
    ensures Add32(Wrap(u), DialDelay(d)) == Wrap(u + DialDelay(d))
    ensures ArmStamp(Wrap(u + DialDelay(d))) == Wrap(DialDue(d, u))
  {
    var due, k := u + DialDelay(d), -(u / WORD);
    assert Wrap(u) + DialDelay(d) == due + k * WORD;
    WrapShift(due, k);
    if Wrap(due) == 0 {
      assert due + 1 == 1 + due / WORD * WORD;
      WrapShift(1, due / WORD);
    }
  }

  lemma UnplacedSetup(s: Session, d: DialInput, u: int)
    requires d.number != "" && !(d.simReady && d.status.registered) && d.now == Wrap(u)
    ensures var q := StartOutgoing(s, d);
      && SettingUp(q) && q.route == Call && !q.resultArmed && q.setup.failureMs == Wrap(DialDue(d, u)) != 0
      && q.setup.failureResult == if d.simReady then NoCarrier else NoResult
  {
    DueWord(d, u);
  }

  // Without a SIM a dial is refused after 480 ms, without a network after 1200 ms and
  // then entered as such; until then the set-up stays as it was.
  lemma UnplacedDialFails(s: Session, d: DialInput, u: int, inp: PollInput, t: int)
    requires d.number != "" && !(d.simReady && d.status.registered)
    requires d.now == Wrap(u) && inp.now == Wrap(t) && u <= t < u + HALF
    requires inp.status.callState == CallState.Idle && !Fails(inp.status.lastResult)
    ensures var q := StartOutgoing(s, d);
      var r := Poll(q, inp);
      if t >= DialDue(d, u) then ShownFailed(q, r, if d.simReady then HadNoNetwork else NoReason)
      else StillSettingUp(q, r)
  {
    UnplacedSetup(s, d, u);
    TimeDiffExact(t, DialDue(d, u));
    UnplacedPoll(StartOutgoing(s, d), inp);
  }

  lemma UnplacedPoll(q: Session, inp: PollInput)
    requires SettingUp(q) && q.route == Call && !q.resultArmed && q.setup.failureMs != 0
    requires inp.status.callState == CallState.Idle && !Fails(inp.status.lastResult)
    requires q.setup.failureResult == NoCarrier || q.setup.failureResult == NoResult
    ensures var r := Poll(q, inp);
      if TimeDiff(inp.now, q.setup.failureMs) >= 0
      then ShownFailed(q, r, if q.setup.failureResult == NoCarrier then HadNoNetwork else NoReason)
      else StillSettingUp(q, r)
  {
    ReconcileSettingUp(q, inp, true);
    var w := Reconcile(q, inp, true);
    assert WaitingStage(w, inp) == More(w);
    EndFails(w.(setup := w.setup.(failureMs := 0)), inp.now,
             FailureReason(w.setup.failureResult, inp.status.registered));
  }

  lemma BothClosed(s: Session, now: u32, reason: Reason)
    ensures FinalizeHeld(FinalizePrimary(s, now, reason)).store.closings ==
      s.store.closings + ClosedWith(s.slots.primary, Elapsed(s.slots.connectedMs, now), reason) +
      ClosedWith(s.slots.held, s.slots.heldSeconds, NoReason)
  {}

  // The end key closes what is on display and then what is held; a caller it turns away
  // is entered as rejected.
  lemma EndKeyCloses(s: Session, now: u32, newId: RecordId)
    ensures var c := s.slots;
      EndCall(s, now, newId, true).store.closings == s.store.closings +
        ClosedWith(c.primary, Elapsed(c.connectedMs, now),
                   if s.phase == Setup && Unanswered(s) then WasRejected else NoReason) +
        ClosedWith(c.held, c.heldSeconds, NoReason)
  {
    var reason := EndReason(s, true);
    BothClosed(s, now, reason);
    assert EndCall(s, now, newId, true).store == FinalizeHeld(FinalizePrimary(s, now, reason)).store;
  }

  // --- Releasing the leg on display while another caller waits ---

  // Once asked for, the release is not asked for again until a minute has passed with
  // the same leg still active.
  lemma ReleaseHolds(s: Session, inp: PollInput)
    requires s.phase == Live && s.route != IncomingCall
    requires inp.status.callState == Active && inp.status.waitingCall
    ensures var a := s.asked;
      Poll(s, inp).asked ==
        if a.release && inp.status.activeId == a.releaseId && TimeDiff(inp.now, a.retryMs) >= 0
        then a.(release := false, releaseId := 0) else a
  {
    var surface := CallSurface(s.route);
    var q := Reconcile(s, inp, surface);
    assert q.phase == Live && q.route == s.route;
    WaitingKeepsAsked(q, inp, surface, s.seen.state);
  }

  lemma WaitingKeepsAsked(s: Session, inp: PollInput, surface: bool, previous: CallState)
    requires s.phase == Live && s.route != IncomingCall
    requires inp.status.callState == Active && inp.status.waitingCall
    ensures Conclude(s, inp, surface, previous).asked == s.asked
  {
    if !s.asked.action {
      PresentStands(s, inp, surface, previous);
    }
  }

  // --- A second party who never came ---

  // The held party is back on display, the one dialled is closed with the cause.
  predicate RolledBack(s: Session, inp: PollInput, r: Session, cause: Reason) {
    var st := inp.status;
    && r.phase == Live && !r.slots.secondary && r.slots.primary == s.slots.held
    && r.store.closings == s.store.closings + ClosedWith(s.slots.primary, 0, cause)
    && r.store.totals == s.store.totals && r.store.register == s.store.register
    && r.requests == s.requests + [Abandon]
    && r.survivor == (if st.onHold && st.activeId != 0 then Survivor(true, st.activeId, Wrap(inp.now + 500))
                      else NO_SURVIVOR)
  }

  lemma RollbackDone(s: Session, result: CallResult, inp: PollInput)
    requires s.slots.connectedMs == 0 && inp.status.callState == Active
    ensures RolledBack(s, inp, RollbackNewCall(s, result, inp), Cause(result, inp.status.registered))
  {}

  // While the network still shows only the first party, the second call is given up when
  // its failure is reported, when it was active and is so no more, or after a minute.
  lemma SecondGivenUp(s: Session, inp: PollInput)
    requires s.phase == Setup && s.slots.secondary && s.route == Call && s.slots.connectedMs == 0
    requires s.setup.failureMs == 0 && (inp.status.waitingCall || !s.waiting.pending)
    requires var st := inp.status; st.callState == Active && (st.activeId == 0 || st.activeId == s.setup.newActiveRef)
    ensures var st, r := inp.status, Poll(s, inp);
      if Fails(st.secondResult) then RolledBack(s, inp, r, Cause(st.secondResult, st.registered))
      else if s.setup.activeSeenMs != 0 then RolledBack(s, inp, r, NoReason)
      else if TimeDiff(inp.now, Add32(s.setup.startedMs, 60000)) >= 0 then RolledBack(s, inp, r, WasNotAnswered)
      else StillSettingUp(s, r)
  {
    ReconcileSecond(s, inp);
    var q := Reconcile(s, inp, true);
    RollbackDone(q, inp.status.secondResult, inp);
    RollbackDone(q, NoResult, inp);
    RollbackDone(q, NoAnswer, inp);
    assert WaitingStage(q, inp) == More(q);
    assert Poll(s, inp) == AwaitSecond(q, inp);
  }

  lemma ReconcileSecond(s: Session, inp: PollInput)
    requires s.phase == Setup && s.slots.secondary && inp.status.callState == Active
    ensures var q := Reconcile(s, inp, true);
      && StillSettingUp(s, q) && q.setup == s.setup && q.waiting == s.waiting
  {}

  // --- Dialling ---

  predicate Admitted(d: DialInput) {
    d.number != "" && (d.simReady && d.status.registered ==> d.admitted)
  }

  // The party dialled is on display, entered when there is a SIM to dial with.
  predicate Dials(s: Session, d: DialInput, r: Session) {
    var leg := r.slots.primary;
    && r.route == Call && r.phase == Setup && r.slots.connectedMs == 0 && !r.incoming.active
    && leg.number == d.number && leg.name == (if d.name == "" then d.contactName else d.name)
    && leg.list == Dialled && leg.recordId == (if d.simReady then d.newRecordId else 0)
    && r.setup.newActiveRef == d.status.activeId && r.setup.startedMs == d.now && r.setup.activeSeenMs == 0
    && (r.setup.failureMs == 0 <==> d.simReady && d.status.registered)
    && r.store == s.store && r.survivor == NO_SURVIVOR
  }

  lemma DialOpens(s: Session, d: DialInput)
    ensures var r := StartOutgoing(s, d);
      if Admitted(d) then Dials(s, d, r) && !r.slots.secondary && !r.waiting.pending
      else r == s.(route := Elsewhere)
  {}

  // Dialling a second party puts the first on hold with the time it shows, and keeps
  // whoever waits; a refused dial changes nothing but the screen.
  lemma SecondDialKeeps(s: Session, d: DialInput)
    ensures var r := DialSecond(s, d);
      if Admitted(d) then
        && Dials(s, d, r) && r.slots.secondary && r.slots.onHold
        && r.slots.held == s.slots.primary && r.slots.heldSeconds == Elapsed(s.slots.connectedMs, d.now)
        && (if s.waiting.pending then r.waiting == s.waiting else !r.waiting.pending)
      else r == s.(route := Elsewhere)
  {
    DialOpens(s, d);
  }

  // Giving up the second party brings the held one back live and closes the entry; when
  // the first party had an id it is to be retrieved, in half a second at the earliest. A
  // release that is not admitted changes nothing.
  lemma CancelRestores(s: Session, st: Status, now: u32, admitted: bool)
    requires SettingUpSecond(s) && s.slots.connectedMs == 0
    ensures var r, ref := CancelNewCall(s, st, now, admitted), s.setup.newActiveRef;
      if TakenOver(s, st) && !admitted then r == s
      else
        && r.phase == Live && r.route == Call && r.resultArmed && !r.slots.secondary && r.slots.primary == s.slots.held
        && r.store.closings == s.store.closings + ClosedWith(s.slots.primary, 0, NoReason)
        && r.store.totals == s.store.totals && r.store.register == s.store.register
        && r.survivor == (if ref != 0 then Survivor(true, ref, Wrap(now + 500)) else NO_SURVIVOR)
  {}

  // --- Keys about the waiting caller ---

  // Once answered or rejected by key, the caller stays as it is while the network still
  // reports it waiting; the mark is gone with the caller.
  lemma AnswerKeyHolds(s: Session, inp: PollInput)
    requires s.phase == Live && s.waiting.pending && inp.status.callState == Active && inp.status.waitingCall
    ensures Poll(AnswerWaiting(s, true), inp).waiting == s.waiting
    ensures Poll(RejectWaiting(s), inp).waiting == s.waiting
  {
    MarkHolds(AnswerWaiting(s, true), inp);
    MarkHolds(RejectWaiting(s), inp);
  }

  lemma MarkHolds(s: Session, inp: PollInput)
    requires s.phase == Live && s.asked.action && s.route == Call
    requires inp.status.callState == Active && inp.status.waitingCall
    ensures Poll(s, inp).waiting == s.waiting
  {
    ReconcileLive(s, inp, true);
    ReconcileOwesNothing(s, inp, true);
  }

  lemma MarkClears(s: Session, inp: PollInput)
    requires !inp.status.waitingCall
    ensures !Poll(s, inp).asked.action
  {
    var q := Reconcile(s, inp, CallSurface(s.route));
    assert !q.asked.action;
    ConcludeMarksNothing(q, inp, CallSurface(s.route), s.seen.state);
  }

  lemma WaitingMarksNothing(s: Session, inp: PollInput)
    requires !s.asked.action
    ensures !WaitingStage(s, inp).s.asked.action
  {}

  lemma ConcludeMarksNothing(s: Session, inp: PollInput, surface: bool, previous: CallState)
    requires !s.asked.action
    ensures !Conclude(s, inp, surface, previous).asked.action
  {
    WaitingMarksNothing(s, inp);
    var w := WaitingStage(s, inp).s;
    SetupMarksNothing(w, inp, surface);
    ActiveMarksNothing(w, inp);
    IdleMarksNothing(w, inp, surface, previous);
    StagesPass(w, inp, surface);
    ResultMarksNothing(IdleStage(w, inp, surface, previous).s, inp, surface);
  }

  lemma SetupMarksNothing(s: Session, inp: PollInput, surface: bool)
    requires !s.asked.action
    ensures !FailureStage(s, inp, surface).s.asked.action && !RingingStage(s, inp).s.asked.action
  {}

  lemma ActiveMarksNothing(s: Session, inp: PollInput)
    requires !s.asked.action
    ensures !ActiveStage(s, inp).s.asked.action
  {}

  lemma IdleMarksNothing(s: Session, inp: PollInput, surface: bool, previous: CallState)
    requires !s.asked.action
    ensures !IdleStage(s, inp, surface, previous).s.asked.action
  {}

  lemma StagesPass(s: Session, inp: PollInput, surface: bool)
    ensures FailureStage(s, inp, surface).More? ==> FailureStage(s, inp, surface).s == s
    ensures RingingStage(s, inp).More? ==> RingingStage(s, inp).s == s
    ensures ActiveStage(s, inp).More? ==> ActiveStage(s, inp).s == s
  {}

  lemma ResultMarksNothing(s: Session, inp: PollInput, surface: bool)
    requires !s.asked.action
    ensures !ResultStage(s, inp, surface).asked.action
  {}

  lemma ReleaseAsked(s: Session, st: Status, u: int)
    requires s.phase == Live && !s.slots.secondary && s.waiting.pending && !s.asked.release
    requires st.waitingCall && st.activeId != 0
    ensures var pressed := EndThisCall(s, st, Wrap(u), 1, true);
      && pressed.requests == s.requests + [ReleaseLeg(st.activeId)] && pressed.phase == Live && pressed.route == Call
      && pressed.asked.release && pressed.asked.releaseId == st.activeId && pressed.asked.retryMs == Wrap(u + 60000)
  {
    var k := -(u / WORD);
    assert Wrap(u) + 60000 == u + 60000 + k * WORD;
    WrapShift(u + 60000, k);
  }

  // Within a minute of releasing the leg on display a second press asks for nothing, as
  // long as the same leg stays active with another caller waiting; from then on it asks
  // again.
  lemma ReleasedOncePerMinute(s: Session, st: Status, u: int, inp: PollInput, t: int)
    requires s.phase == Live && !s.slots.secondary && s.waiting.pending && !s.asked.release
    requires st.waitingCall && st.activeId != 0
    requires inp.status.callState == Active && inp.status.waitingCall && inp.status.activeId == st.activeId
    requires inp.now == Wrap(t) && u <= t < u + HALF
    ensures var pressed := EndThisCall(s, st, Wrap(u), 1, true);
      && pressed.requests == s.requests + [ReleaseLeg(st.activeId)]
      && (Poll(pressed, inp).asked.release <==> t < u + 60000)
  {
    ReleaseAsked(s, st, u);
    TimeDiffExact(t, u + 60000);
    ReleaseHolds(EndThisCall(s, st, Wrap(u), 1, true), inp);
  }

  // --- Hanging up ---

  // Nothing is left of the call the user ended.
  predicate HungUp(s: Session) {
    && s.localHangup && s.phase == Setup && s.route != IncomingCall
    && !s.slots.secondary && !s.waiting.pending && s.setup.failureMs == 0
  }

  lemma HangsUp(s: Session, now: u32, newId: RecordId)
    ensures HungUp(EndCall(s, now, newId, true)) && HungUp(RejectIncoming(s, newId))
  {}

  // However often the network still reports the call a user ended or rejected as ringing,
  // it is not presented again.
  lemma NotPresentedAgain(s: Session, inp: PollInput)
    requires HungUp(s) && inp.status.callState == Ringing
    ensures var r := Poll(s, inp); HungUp(r) && r.store == s.store && r.nextCaller == s.nextCaller && r.route == s.route
  {
    var q := Reconcile(s, inp, CallSurface(s.route));
    assert HungUp(q) && q.store == s.store && q.nextCaller == s.nextCaller && q.route == s.route;
  }

  function RunRings(s: Session, inps: seq<PollInput>): Session
    decreases |inps|
  {
    if inps == [] then s else RunRings(Poll(s, inps[0]), inps[1..])
  }

  lemma {:induction false} StaysHungUp(s: Session, inps: seq<PollInput>)
    requires HungUp(s) && forall inp | inp in inps :: inp.status.callState == Ringing
    ensures var r := RunRings(s, inps); HungUp(r) && r.store == s.store && r.nextCaller == s.nextCaller
    decreases |inps|
  {
    if inps != [] {
      NotPresentedAgain(s, inps[0]);
      StaysHungUp(Poll(s, inps[0]), inps[1..]);
    }
  }

  // Once the modem has been idle the next ring is a new caller's again.
  lemma IdleForgets(s: Session, inp: PollInput)
    requires HungUp(s) && inp.status.callState == CallState.Idle
    ensures var r := Poll(s, inp);
      !r.localHangup && r.store.register == s.store.register && r.nextCaller == s.nextCaller
  {
    var surface := CallSurface(s.route);
    var q := Reconcile(s, inp, surface);
    assert HungUp(q) && q.store == s.store && q.nextCaller == s.nextCaller && q.route == s.route;
    IdleForgotten(q, inp, surface, s.seen.state);
  }

  lemma IdleForgotten(s: Session, inp: PollInput, surface: bool, previous: CallState)
    requires HungUp(s) && inp.status.callState == CallState.Idle
    ensures var r := Conclude(s, inp, surface, previous);
      !r.localHangup && r.store.register == s.store.register && r.nextCaller == s.nextCaller
  {
    assert WaitingStage(s, inp) == More(s) && FailureStage(s, inp, surface) == More(s);
    assert RingingStage(s, inp) == More(s) && ActiveStage(s, inp) == More(s);
  }

  // --- What is shown of a sole call ---

  // A poll of a sole live call shows it on hold exactly when the network does.
  lemma HoldIsShown(s: Session, inp: PollInput)
    requires s.phase == Live && !s.slots.secondary && s.route != IncomingCall
    requires inp.status.callState == Active && (inp.status.waitingCall || !s.waiting.pending)
    ensures Poll(s, inp).slots == s.slots.(onHold := inp.status.onHold)
  {
    var q := Reconcile(s, inp, CallSurface(s.route));
    assert q.slots == s.slots.(onHold := inp.status.onHold);
    ConcludeShows(q, inp, CallSurface(s.route), s.seen.state);
  }

  lemma ConcludeShows(s: Session, inp: PollInput, surface: bool, previous: CallState)
    requires s.phase == Live && s.route != IncomingCall
    requires inp.status.callState == Active && (inp.status.waitingCall || !s.waiting.pending)
    ensures var r := Conclude(s, inp, surface, previous);
      r.slots == s.slots && r.survivor == s.survivor && r.requests == s.requests
  {
    if inp.status.waitingCall && !s.asked.action {
      PresentStands(s, inp, surface, previous);
    }
  }
}
