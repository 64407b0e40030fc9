// Duration conservation over polls and keys: which role changes each event performs,
// which events drop a call's time uncharged, and the books over any other run.

module CallConservation {
  import opened Wrappers
  import opened Timebase
  import opened CallTypes
  import opened CallStore
  import opened CallSession
  import opened CallEvents
  import opened CallDuration

  // --- Role changes in a row ---

  function PerformAll(s: Session, ops: seq<Op>, t: int): Session
    decreases |ops|
  {
    if ops == [] then s else PerformAll(Perform(s, ops[0], t), ops[1..], t)
  }

  predicate EnabledAll(s: Session, ops: seq<Op>, t: int)
    decreases |ops|
  {
    ops == [] || (Enabled(s, ops[0], t) && EnabledAll(Perform(s, ops[0], t), ops[1..], t))
  }

  function AccountAll(b: Books, s: Session, ops: seq<Op>, t: int): (r: Books)
    requires b.primary.Some? ==> b.primary.value.since <= t
    ensures r.primary.Some? ==> r.primary.value.since <= t
    decreases |ops|
  {
    if ops == [] then b
    else
      AccountSince(b, s, ops[0], t);
      AccountAll(Account(b, s, ops[0], t), Perform(s, ops[0], t), ops[1..], t)
  }

  lemma AccountSince(b: Books, s: Session, op: Op, t: int)
    requires b.primary.Some? ==> b.primary.value.since <= t
    ensures var r := Account(b, s, op, t); r.primary.Some? ==> r.primary.value.since <= t
  {}

  // A session with the same timers and the same charges.
  predicate SameTime(s: Session, r: Session) {
    && r.slots.connectedMs == s.slots.connectedMs && r.slots.heldSeconds == s.slots.heldSeconds
    && r.slots.secondary == s.slots.secondary
    && r.store.ledger == s.store.ledger && r.store.totals == s.store.totals
  }

  // r is what these role changes make of s, as far as time goes.
  predicate Performs(s: Session, ops: seq<Op>, t: int, r: Session) {
    EnabledAll(s, ops, t) && SameTime(PerformAll(s, ops, t), r)
  }

  lemma FitsAfter(s: Session, b: Books, op: Op, t: int)
    requires Conserved(s, b, t) && Fits(b, t)
    ensures Fits(Account(b, s, op, t), t)
  {}

  lemma {:induction false} AllConserve(s: Session, b: Books, ops: seq<Op>, t: int, r: Session)
    requires Conserved(s, b, t) && Fits(b, t) && Performs(s, ops, t, r)
    ensures Conserved(r, AccountAll(b, s, ops, t), t) && Fits(AccountAll(b, s, ops, t), t)
    decreases |ops|
  {
    if ops != [] {
      StepConserves(s, b, ops[0], t);
      FitsAfter(s, b, ops[0], t);
      AllConserve(Perform(s, ops[0], t), Account(b, s, ops[0], t), ops[1..], t, r);
    }
  }

  lemma OneOp(s: Session, op: Op, t: int)
    ensures PerformAll(s, [op], t) == Perform(s, op, t)
    ensures EnabledAll(s, [op], t) <==> Enabled(s, op, t)
  {
    assert [op][1..] == [];
  }

  lemma TwoOps(s: Session, op: Op, after: Op, t: int)
    ensures PerformAll(s, [op, after], t) == Perform(Perform(s, op, t), after, t)
    ensures EnabledAll(s, [op, after], t) <==> Enabled(s, op, t) && Enabled(Perform(s, op, t), after, t)
  {
    assert [op, after][1..] == [after];
    OneOp(Perform(s, op, t), after, t);
  }

  // --- The role changes of a poll, stage by stage ---

  function ReconcileOps(s: Session, st: Status, surface: bool): seq<Op> {
    if s.phase == Live then
      if !s.slots.secondary || !s.seen.secondHeld then []
      else if !st.secondHeld then (if st.activeId == s.seen.activeId then [DropHeldOp] else [PromoteOp(NoReason)])
      else if st.activeId != s.seen.activeId then [SwapOp] else []
    else if surface && s.slots.secondary && s.setup.newActiveRef != 0 &&
            st.callState == Dialing && st.activeId == 0
    then [OriginalReleasedOp(st)]
    else []
  }

  function WaitingOps(s: Session, inp: PollInput): seq<Op> {
    if inp.status.waitingCall || !s.waiting.pending then []
    else if inp.status.secondHeld && !s.slots.secondary then [AnswerWaitingOp(inp.newRecordId)]
    else match WaitingSurvival(s.waiting, inp.snapshot)
      case Unresolved => []
      case StillRinging => [EndOp(inp.newRecordId)]
      case NowConnected => [EndOp(inp.newRecordId), ConnectOp]
      case Gone => if inp.status.callState == Ringing then [EndOp(inp.newRecordId)] else []
  }

  function FailureOps(s: Session, inp: PollInput): seq<Op> {
    if s.slots.secondary then
      [PromoteOp(ReasonFor(if s.setup.failureResult == NoResult then NoAnswer else s.setup.failureResult,
                           inp.status.registered))]
    else [EndOp(inp.newRecordId)]
  }

  function AwaitOps(s: Session, inp: PollInput): seq<Op> {
    var st := inp.status;
    if st.secondResult != NoResult && st.secondResult != Connected then
      [PromoteOp(ReasonFor(st.secondResult, st.registered))]
    else if s.setup.activeSeenMs != 0 then [PromoteOp(ReasonFor(NoResult, st.registered))]
    else if TimeDiff(inp.now, Add32(s.setup.startedMs, NEW_CALL_TIMEOUT_MS)) >= 0 then
      [PromoteOp(ReasonFor(NoAnswer, st.registered))]
    else []
  }

  function ActiveOps(s: Session, inp: PollInput): seq<Op> {
    var st := inp.status;
    if s.route == Call && s.phase == Setup then
      if s.slots.secondary && (st.activeId == 0 || st.activeId == s.setup.newActiveRef) then AwaitOps(s, inp)
      else if s.setup.activeSeenMs != 0 && TimeDiff(inp.now, Add32(s.setup.activeSeenMs, ACTIVE_CONFIRM_MS)) >= 0
      then [ConnectOp] else []
    else [ConnectOp]
  }

  function IdleOps(s: Session, inp: PollInput): seq<Op> {
    if s.route == IncomingCall then [] else [EndOp(inp.newRecordId)]
  }

  function ConcludeOps(s: Session, inp: PollInput, surface: bool, previous: CallState): seq<Op> {
    var waited := WaitingStage(s, inp);
    if waited.Done? then WaitingOps(s, inp) else
    var failed := FailureStage(waited.s, inp, surface);
    if failed.Done? then FailureOps(waited.s, inp) else
    var rung := RingingStage(failed.s, inp);
    if rung.Done? then [] else
    var active := ActiveStage(rung.s, inp);
    if active.Done? then ActiveOps(rung.s, inp) else
    var idle := IdleStage(active.s, inp, surface, previous);
    if idle.Done? then IdleOps(active.s, inp) else
    if ResultStage(idle.s, inp, surface) == idle.s then [] else [EndOp(inp.newRecordId)]
  }

  // --- The discarding paths ---

  // A waiting caller takes over while a party is held: that party's time is dropped.
  predicate WaitingDiscards(s: Session, inp: PollInput) {
    && !inp.status.waitingCall && s.waiting.pending && s.slots.secondary
    && (WaitingSurvival(s.waiting, inp.snapshot) == StillRinging ||
        WaitingSurvival(s.waiting, inp.snapshot) == NowConnected ||
        (WaitingSurvival(s.waiting, inp.snapshot) == Gone && inp.status.callState == Ringing))
  }

  // A running timer, or a party on hold.
  predicate HasTime(s: Session) {
    s.slots.connectedMs != 0 || s.slots.secondary
  }

  // A new incoming call replaces a session that has time.
  predicate RingingDiscards(s: Session, inp: PollInput) {
    inp.status.callState == Ringing && !s.localHangup && s.route != IncomingCall && s.route != Call && HasTime(s)
  }

  // A connection restarts a timer that is running.
  predicate ActiveDiscards(s: Session, inp: PollInput) {
    inp.status.callState == Active && ActiveOps(s, inp) == [ConnectOp] && ActiveStage(s, inp).Done? &&
    s.slots.connectedMs != 0
  }

  // A set-up is torn down while a party is held, or a ringing call ends a session that has time.
  predicate IdleDiscards(s: Session, inp: PollInput, surface: bool, previous: CallState) {
    && IdleStage(s, inp, surface, previous).Done?
    && if s.route == IncomingCall then HasTime(s) else s.phase != Live && s.slots.secondary
  }

  predicate ResultDiscards(s: Session, inp: PollInput, surface: bool) {
    ResultStage(s, inp, surface) != s && s.slots.secondary
  }

  predicate ConcludeDiscards(s: Session, inp: PollInput, surface: bool, previous: CallState) {
    var waited := WaitingStage(s, inp);
    if waited.Done? then WaitingDiscards(s, inp) else
    var failed := FailureStage(waited.s, inp, surface);
    if failed.Done? then false else
    var rung := RingingStage(failed.s, inp);
    if rung.Done? then RingingDiscards(failed.s, inp) else
    var active := ActiveStage(rung.s, inp);
    if active.Done? then ActiveDiscards(rung.s, inp) else
    var idle := IdleStage(active.s, inp, surface, previous);
    if idle.Done? then IdleDiscards(active.s, inp, surface, previous) else
    ResultDiscards(idle.s, inp, surface)
  }

  // The events that drop time: the paths above, and keys that open or dial another
  // call over one that has time.
  predicate Discards(s: Session, e: Event) {
    match e
    case PollEvent(inp) =>
      var surface := CallSurface(s.route);
      ConcludeDiscards(Reconcile(s, inp, surface), inp, surface, s.seen.state)
    case RejectEvent(_) => HasTime(s)
    case DialEvent(d) => !DialRefused(d) && HasTime(s)
    case DialSecondEvent(d) => !DialRefused(d) && s.slots.secondary
    case _ => false
  }

  // --- Each stage performs its role changes ---

  // What Conserved says of the held slot.
  predicate HeldTimed(s: Session) {
    !s.slots.secondary ==> s.slots.heldSeconds == 0
  }

  // Of the stages that never end a poll, two can touch the slots.
  lemma ReconcileTime(s: Session, inp: PollInput, surface: bool)
    ensures var st := inp.status;
      SameTime(if s.phase == Live then ReconcileTwoCall(s, st, inp.now)
               else OriginalReleased(s, st, inp.now, surface),
               Reconcile(s, inp, surface))
  {}

  lemma ReconcilePerforms(s: Session, inp: PollInput, surface: bool, t: int)
    requires inp.now == Wrap(t)
    ensures Performs(s, ReconcileOps(s, inp.status, surface), t, Reconcile(s, inp, surface))
  {
    var ops := ReconcileOps(s, inp.status, surface);
    ReconcileTime(s, inp, surface);
    if ops != [] {
      OneOp(s, ops[0], t);
      assert ops == [ops[0]];
    }
  }

  // A session with the same slots and store.
  predicate SameBooks(s: Session, x: Session) {
    x.slots == s.slots && x.store == s.store
  }

  lemma EndPerforms(s: Session, newId: RecordId, t: int, reason: Reason, r: Session)
    requires HeldTimed(s) && !s.slots.secondary
    requires r.slots.connectedMs == 0 && r.slots.heldSeconds == 0 && !r.slots.secondary
    requires var x := FinalizePrimary(s, Wrap(t), reason).store;
      r.store.ledger == x.ledger && r.store.totals == x.totals
    ensures Performs(s, [EndOp(newId)], t, r)
  {
    OneOp(s, EndOp(newId), t);
    EndCallSettles(s, Wrap(t), newId);
  }

  lemma ResultPerforms(s: Session, x: Session, newId: RecordId, t: int, reason: Reason)
    requires HeldTimed(s) && !s.slots.secondary && SameBooks(s, x)
    ensures Performs(s, [EndOp(newId)], t, EndWithResult(x, Wrap(t), reason))
  {
    EndPerforms(s, newId, t, reason, EndWithResult(x, Wrap(t), reason));
  }

  lemma PromotePerforms(s: Session, x: Session, t: int, reason: Reason, r: Session)
    requires SameBooks(s, x) && s.slots.secondary && SameTime(PromoteHeld(x, Wrap(t), reason), r)
    ensures Performs(s, [PromoteOp(reason)], t, r)
  {
    OneOp(s, PromoteOp(reason), t);
  }

  lemma ConnectPerforms(s: Session, x: Session, t: int, r: Session)
    requires SameBooks(s, x) && s.slots.connectedMs == 0 && SameTime(Connect(x, Wrap(t)), r)
    ensures Performs(s, [ConnectOp], t, r)
  {
    OneOp(s, ConnectOp, t);
  }

  lemma NothingPerformed(s: Session, t: int, r: Session)
    requires SameTime(s, r)
    ensures Performs(s, [], t, r)
  {}

  lemma ConnectedPerforms(s: Session, inp: PollInput, t: int)
    requires HeldTimed(s) && !s.slots.secondary && inp.now == Wrap(t)
    ensures Performs(s, [EndOp(inp.newRecordId), ConnectOp], t, HandoffToConnected(s, inp))
  {
    TwoOps(s, EndOp(inp.newRecordId), ConnectOp, t);
    EndCallSettles(s, Wrap(t), inp.newRecordId);
  }

  lemma RingingOnPerforms(s: Session, x: Session, inp: PollInput, t: int)
    requires HeldTimed(s) && !s.slots.secondary && SameBooks(s, x) && inp.now == Wrap(t)
    ensures Performs(s, [EndOp(inp.newRecordId)], t, HandoffToIncoming(x, inp))
  {
    EndPerforms(s, inp.newRecordId, t, NoReason, HandoffToIncoming(x, inp));
  }

  lemma ReplacedPerforms(s: Session, x: Session, inp: PollInput, t: int)
    requires HeldTimed(s) && !s.slots.secondary && SameBooks(s, x) && inp.now == Wrap(t)
    requires inp.status.callState == Ringing
    ensures Performs(s, [EndOp(inp.newRecordId)], t, WaitingGone(x, inp))
  {
    EndPerforms(s, inp.newRecordId, t, NoReason, WaitingGone(x, inp));
  }

  lemma ResolvePerforms(s: Session, inp: PollInput, t: int)
    requires HeldTimed(s) && !WaitingDiscards(s, inp) && inp.now == Wrap(t)
    requires !inp.status.waitingCall && s.waiting.pending
    ensures Performs(s, WaitingOps(s, inp), t, ResolveWaiting(s, inp))
  {
    var r := s.(asked := s.asked.(release := false, releaseId := 0));
    if inp.status.secondHeld && !s.slots.secondary {
      OneOp(s, AnswerWaitingOp(inp.newRecordId), t);
    } else {
      match WaitingSurvival(s.waiting, inp.snapshot)
      case Unresolved => NothingPerformed(s, t, s);
      case StillRinging => RingingOnPerforms(s, r, inp, t);
      case NowConnected => ConnectedPerforms(s, inp, t);
      case Gone =>
        if inp.status.callState == Ringing {
          ReplacedPerforms(s, r, inp, t);
        } else {
          NothingPerformed(s, t, WaitingGone(r, inp));
        }
    }
  }

  lemma WaitingPerforms(s: Session, inp: PollInput, t: int)
    requires HeldTimed(s) && inp.now == Wrap(t)
    requires WaitingStage(s, inp).Done? ==> !WaitingDiscards(s, inp)
    ensures var o := WaitingStage(s, inp);
      if o.Done? then Performs(s, WaitingOps(s, inp), t, o.s) else SameBooks(s, o.s)
  {
    if !inp.status.waitingCall && s.waiting.pending {
      ResolvePerforms(s, inp, t);
    }
  }

  lemma FailurePerforms(s: Session, x: Session, inp: PollInput, surface: bool, t: int)
    requires HeldTimed(s) && SameBooks(s, x) && inp.now == Wrap(t)
    ensures var o := FailureStage(x, inp, surface);
      if o.Done? then Performs(s, FailureOps(x, inp), t, o.s) else o.s == x
  {
    if FailureStage(x, inp, surface).Done? {
      var result := x.setup.failureResult;
      var y := x.(setup := x.setup.(failureMs := 0));
      if x.slots.secondary {
        PromotePerforms(s, y, t, ReasonFor(if result == NoResult then NoAnswer else result, inp.status.registered),
                        FailureStage(x, inp, surface).s);
      } else {
        ResultPerforms(s, y, inp.newRecordId, t, FailureReason(result, inp.status.registered));
      }
    }
  }

  lemma RingingPerforms(s: Session, x: Session, inp: PollInput, t: int)
    requires HeldTimed(s) && SameBooks(s, x)
    requires RingingStage(x, inp).Done? ==> !RingingDiscards(x, inp)
    ensures var o := RingingStage(x, inp);
      if o.Done? then Performs(s, [], t, o.s) else o.s == x
  {}

  lemma AwaitPerforms(s: Session, x: Session, inp: PollInput, t: int)
    requires SameBooks(s, x) && s.slots.secondary && inp.now == Wrap(t)
    ensures Performs(s, AwaitOps(x, inp), t, AwaitSecond(x, inp))
  {
    var ops, r := AwaitOps(x, inp), AwaitSecond(x, inp);
    if ops == [] {
      NothingPerformed(s, t, r);
    } else {
      PromotePerforms(s, x, t, ops[0].reason, r);
      assert ops == [PromoteOp(ops[0].reason)];
    }
  }

  lemma ActivePerforms(s: Session, x: Session, inp: PollInput, t: int)
    requires SameBooks(s, x) && inp.now == Wrap(t)
    requires ActiveStage(x, inp).Done? ==> !ActiveDiscards(x, inp)
    ensures var o := ActiveStage(x, inp);
      if o.Done? then Performs(s, ActiveOps(x, inp), t, o.s) else o.s == x
  {
    var o := ActiveStage(x, inp);
    if o.Done? {
      if x.route == Call && x.phase == Setup && x.slots.secondary &&
         (inp.status.activeId == 0 || inp.status.activeId == x.setup.newActiveRef) {
        AwaitPerforms(s, x, inp, t);
      } else if ActiveOps(x, inp) == [ConnectOp] {
        ConnectPerforms(s, x, t, o.s);
      } else {
        NothingPerformed(s, t, o.s);
      }
    }
  }

  lemma LiveEndPerforms(s: Session, y: Session, inp: PollInput, t: int)
    requires SameBooks(s, y) && inp.now == Wrap(t)
    ensures Performs(s, [EndOp(inp.newRecordId)], t,
                     ResetSession(FinalizeHeld(FinalizePrimary(y, inp.now, NoReason))).(route := Standby))
  {
    OneOp(s, EndOp(inp.newRecordId), t);
    EndCallSettles(s, Wrap(t), inp.newRecordId);
    BothSettle(s, y, Wrap(t), EndReason(s, true));
  }

  // Why the entries are closed makes no difference to what is charged.
  lemma BothSettle(s: Session, y: Session, now: u32, reason: Reason)
    requires SameBooks(s, y)
    ensures var c := s.slots;
      var x := FinalizeHeld(FinalizePrimary(y, now, NoReason)).store;
      var z := Settle(Settle(s.store, c.primary, Elapsed(c.connectedMs, now), reason), c.held, c.heldSeconds, NoReason);
      x.ledger == z.ledger && x.totals == z.totals
  {}

  lemma RingingEndPerforms(s: Session, y: Session, newId: RecordId, t: int)
    requires HeldTimed(s) && SameBooks(s, y) && !HasTime(s)
    ensures Performs(s, [], t, IncomingIdle(y, newId))
  {}

  lemma IdlePerforms(s: Session, x: Session, inp: PollInput, surface: bool, previous: CallState, t: int)
    requires HeldTimed(s) && SameBooks(s, x) && inp.now == Wrap(t)
    requires IdleStage(x, inp, surface, previous).Done? ==> !IdleDiscards(x, inp, surface, previous)
    ensures var o := IdleStage(x, inp, surface, previous);
      if o.Done? then Performs(s, IdleOps(x, inp), t, o.s) else SameBooks(s, o.s)
  {
    var o, y := IdleStage(x, inp, surface, previous), x.(localHangup := false);
    if o.Done? {
      if x.route == IncomingCall {
        RingingEndPerforms(s, y, inp.newRecordId, t);
      } else if x.phase == Live {
        LiveEndPerforms(s, y, inp, t);
      } else {
        ResultPerforms(s, y, inp.newRecordId, t, ReasonFor(inp.status.lastResult, inp.status.registered));
      }
    }
  }

  lemma LastPerforms(s: Session, x: Session, inp: PollInput, surface: bool, t: int)
    requires HeldTimed(s) && SameBooks(s, x) && inp.now == Wrap(t) && !ResultDiscards(x, inp, surface)
    ensures Performs(s, if ResultStage(x, inp, surface) == x then [] else [EndOp(inp.newRecordId)], t,
                     ResultStage(x, inp, surface))
  {
    if ResultStage(x, inp, surface) != x {
      ResultPerforms(s, x, inp.newRecordId, t, ReasonFor(inp.status.lastResult, inp.status.registered));
    }
  }

  lemma ConcludePerforms(s: Session, inp: PollInput, surface: bool, previous: CallState, t: int)
    requires HeldTimed(s) && inp.now == Wrap(t) && !ConcludeDiscards(s, inp, surface, previous)
    ensures Performs(s, ConcludeOps(s, inp, surface, previous), t, Conclude(s, inp, surface, previous))
  {
    WaitingPerforms(s, inp, t);
    var waited := WaitingStage(s, inp);
    if waited.More? {
      FailurePerforms(s, waited.s, inp, surface, t);
      var failed := FailureStage(waited.s, inp, surface);
      if failed.More? {
        RingingPerforms(s, failed.s, inp, t);
        if RingingStage(failed.s, inp).More? {
          ActivePerforms(s, failed.s, inp, t);
          if ActiveStage(failed.s, inp).More? {
            IdlePerforms(s, failed.s, inp, surface, previous, t);
            var idle := IdleStage(failed.s, inp, surface, previous);
            if idle.More? {
              LastPerforms(s, idle.s, inp, surface, t);
            }
          }
        }
      }
    }
  }

  // --- Events ---

  function KeyOps(e: Event): seq<Op> {
    match e
    case EndEvent(_, newId) => [EndOp(newId)]
    case EndAllEvent(_, newId) => [EndOp(newId)]
    case CancelEvent(_, _, _) => [PromoteOp(NoReason)]
    case DialSecondEvent(d) => [DialSecondOp(d)]
    case ClearTimersEvent => [ClearTimersOp]
    case _ => []
  }

  // The role changes a key performs: a cancelled or released call may stay as it is
  // until the network answers.
  function OpsOfKey(s: Session, e: Event): seq<Op> {
    match e
    case EndThisEvent(_, _, newId, _) => if s.waiting.pending || s.slots.secondary then [] else [EndOp(newId)]
    case CancelEvent(_, _, _) => if Command(s, e) == s then [] else KeyOps(e)
    case DialSecondEvent(d) => if DialRefused(d) then [] else KeyOps(e)
    case _ => KeyOps(e)
  }

  lemma EndKeyPerforms(s: Session, now: u32, newId: RecordId, t: int, r: Session)
    requires now == Wrap(t) && SameTime(EndCall(s, now, newId, true), r)
    ensures Performs(s, [EndOp(newId)], t, r)
  {
    OneOp(s, EndOp(newId), t);
  }

  lemma CancelPerforms(s: Session, e: Event, t: int)
    requires e.CancelEvent? && Offered(s, e) && OnTime(Timed(e, t))
    ensures Performs(s, OpsOfKey(s, e), t, Command(s, e))
  {
    if Command(s, e) != s {
      PromotePerforms(s, s, t, NoReason, Command(s, e));
    }
  }

  lemma DialPerforms(s: Session, e: Event, t: int)
    requires HeldTimed(s) && (e.DialEvent? || e.DialSecondEvent?) && !Discards(s, e) && OnTime(Timed(e, t))
    ensures Performs(s, OpsOfKey(s, e), t, Command(s, e))
  {
    if e.DialSecondEvent? && !DialRefused(e.d) {
      OneOp(s, DialSecondOp(e.d), t);
    }
  }

  lemma CommandPerforms(s: Session, e: Event, t: int)
    requires HeldTimed(s) && IsCommand(e) && Offered(s, e) && !Discards(s, e) && OnTime(Timed(e, t))
    ensures Performs(s, OpsOfKey(s, e), t, Command(s, e))
  {
    match e
    case RejectEvent(newId) => NothingPerformed(s, t, RejectIncoming(s, newId));
    case EndThisEvent(st, now, newId, admitted) =>
      if s.waiting.pending || s.slots.secondary {
        NothingPerformed(s, t, EndThisCall(s, st, now, newId, admitted));
      } else {
        EndKeyPerforms(s, now, newId, t, EndThisCall(s, st, now, newId, admitted));
      }
    case EndEvent(now, newId) => EndKeyPerforms(s, now, newId, t, EndCall(s, now, newId, true));
    case EndAllEvent(now, newId) => EndKeyPerforms(s, now, newId, t, EndAllCalls(s, now, newId));
    case CancelEvent(_, _, _) => CancelPerforms(s, e, t);
    case _ => DialPerforms(s, e, t);
  }

  lemma PressPerforms(s: Session, e: Event, t: int)
    requires !IsCommand(e) && !e.PollEvent?
    ensures Performs(s, OpsOfKey(s, e), t, Press(s, e))
  {
    if e.ClearTimersEvent? {
      OneOp(s, ClearTimersOp, t);
    } else {
      NothingPerformed(s, t, Press(s, e));
    }
  }

  // The books an event leaves.
  function EventBooks(b: Books, s: Session, e: Event, t: int): (r: Books)
    requires b.primary.Some? ==> b.primary.value.since <= t
    ensures r.primary.Some? ==> r.primary.value.since <= t
  {
    if e.PollEvent? then
      var surface := CallSurface(s.route);
      var x := Reconcile(s, e.inp, surface);
      AccountAll(AccountAll(b, s, ReconcileOps(s, e.inp.status, surface), t),
                 x, ConcludeOps(x, e.inp, surface, s.seen.state), t)
    else AccountAll(b, s, OpsOfKey(s, e), t)
  }

  // Every poll and key outside the discarding paths performs only the role changes,
  // and so keeps every leg's charge equal to what it was due.
  lemma EventConserves(s: Session, b: Books, e: Event, t: int)
    requires Conserved(s, b, t) && Fits(b, t) && Offered(s, e) && OnTime(Timed(e, t)) && !Discards(s, e)
    ensures Conserved(Step(s, e), EventBooks(b, s, e, t), t)
  {
    if e.PollEvent? {
      PollConserves(s, b, e.inp, t);
    } else if IsCommand(e) {
      CommandPerforms(s, e, t);
      AllConserve(s, b, OpsOfKey(s, e), t, Step(s, e));
    } else {
      PressPerforms(s, e, t);
      AllConserve(s, b, OpsOfKey(s, e), t, Step(s, e));
    }
  }

  lemma PollConserves(s: Session, b: Books, inp: PollInput, t: int)
    requires Conserved(s, b, t) && Fits(b, t) && inp.now == Wrap(t) && !Discards(s, PollEvent(inp))
    ensures Conserved(Poll(s, inp), EventBooks(b, s, PollEvent(inp), t), t)
  {
    var surface, previous := CallSurface(s.route), s.seen.state;
    var x := Reconcile(s, inp, surface);
    ReconcilePerforms(s, inp, surface, t);
    AllConserve(s, b, ReconcileOps(s, inp.status, surface), t, x);
    var b1 := AccountAll(b, s, ReconcileOps(s, inp.status, surface), t);
    ConcludePerforms(x, inp, surface, previous, t);
    AllConserve(x, b1, ConcludeOps(x, inp, surface, previous), t, Poll(s, inp));
  }

  // --- Runs ---

  // Every event is one the app offers and drops no time, on a clock that never goes
  // back, and no leg reaches 2^31 ms.
  predicate Regular(s: Session, b: Books, t: int, xs: seq<Timed>)
    requires b.primary.Some? ==> b.primary.value.since <= t
    decreases |xs|
  {
    xs == [] ||
    var x := xs[0];
    && t <= x.t && OnTime(x) && Offered(s, x.e) && !Discards(s, x.e) && Fits(b, x.t)
    && Regular(Step(s, x.e), EventBooks(b, s, x.e, x.t), x.t, xs[1..])
  }

  function BooksAfter(s: Session, b: Books, t: int, xs: seq<Timed>): Books
    requires b.primary.Some? ==> b.primary.value.since <= t
    requires Regular(s, b, t, xs)
    decreases |xs|
  {
    if xs == [] then b
    else BooksAfter(Step(s, xs[0].e), EventBooks(b, s, xs[0].e, xs[0].t), xs[0].t, xs[1..])
  }

  function LastTime(t: int, xs: seq<Timed>): int {
    if xs == [] then t else xs[|xs| - 1].t
  }

  lemma LaterConserved(s: Session, b: Books, t: int, u: int)
    requires Conserved(s, b, t) && t <= u
    ensures Conserved(s, b, u)
  {}

  lemma {:induction false} EventsConserve(s: Session, b: Books, t: int, xs: seq<Timed>)
    requires Conserved(s, b, t) && Regular(s, b, t, xs)
    ensures Conserved(RunTimed(s, xs), BooksAfter(s, b, t, xs), LastTime(t, xs))
    decreases |xs|
  {
    if xs != [] {
      var x, rest := xs[0], xs[1..];
      LaterConserved(s, b, t, x.t);
      EventConserves(s, b, x.e, x.t);
      EventsConserve(Step(s, x.e), EventBooks(b, s, x.e, x.t), x.t, rest);
      assert LastTime(t, xs) == LastTime(x.t, rest);
    }
  }

  // Over any run of polls and keys outside the discarding paths: every leg that ended
  // since the timers were last cleared was charged what it was due, and the three
  // totals are the saturated sums of those charges.
  lemma EventTotals(s: Session, b: Books, t: int, xs: seq<Timed>)
    requires Conserved(s, b, t) && Regular(s, b, t, xs)
    ensures var e := BooksAfter(s, b, t, xs).settled;
      var totals := RunTimed(s, xs).store.totals;
      && (forall x | x in e :: Within(x.charged, x.due))
      && Bounds(totals.all, e, None)
      && Bounds(totals.received, e, Some(Received))
      && Bounds(totals.dialled, e, Some(Dialled))
  {
    EventsConserve(s, b, t, xs);
    ConservedTotals(RunTimed(s, xs), BooksAfter(s, b, t, xs), LastTime(t, xs));
  }

  // --- What the discarding paths drop ---

  predicate HoldsNothing(c: Slots) {
    c.heldSeconds == 0 && c.held.recordId == 0
  }

  lemma SettleNothing(st: Store, leg: Leg, seconds: u32, reason: Reason)
    ensures Settle(st, leg, seconds, reason) == st <==> seconds == 0 && leg.recordId == 0
  {}

  // A torn-down set-up charges the held party and closes its entry only when there is
  // nothing to charge or close.
  lemma TeardownDrops(s: Session, now: u32, reason: Reason)
    ensures (EndWithResult(s, now, reason).store == FinalizeHeld(FinalizePrimary(s, now, reason)).store)
      <==> HoldsNothing(s.slots)
  {
    SettleNothing(FinalizePrimary(s, now, reason).store, s.slots.held, s.slots.heldSeconds, NoReason);
  }

  // So does a waiting caller who takes over, ringing or connected ...
  lemma TakeoverDrops(s: Session, inp: PollInput)
    ensures var ended := FinalizePrimary(s, inp.now, NoReason);
      var w := s.waiting;
      && (HandoffToIncoming(s, inp).store == FinalizeHeld(ended).store <==> HoldsNothing(s.slots))
      && ((HandoffToConnected(s, inp).store == WithReceived(FinalizeHeld(ended).store, w.number, w.name, w.caller))
            <==> HoldsNothing(s.slots))
  {
    SettleNothing(FinalizePrimary(s, inp.now, NoReason).store, s.slots.held, s.slots.heldSeconds, NoReason);
  }

  // ... while a direct incoming call drops the running timer as well.
  lemma IncomingDrops(s: Session, inp: PollInput)
    ensures var c := s.slots;
      (OpenNewIncoming(s, inp).store == FinalizeHeld(FinalizePrimary(s, inp.now, NoReason)).store)
        <==> (Elapsed(c.connectedMs, inp.now) == 0 && c.primary.recordId == 0 && HoldsNothing(c))
  {
    var c := s.slots;
    SettleNothing(s.store, c.primary, Elapsed(c.connectedMs, inp.now), NoReason);
    SettleNothing(FinalizePrimary(s, inp.now, NoReason).store, c.held, c.heldSeconds, NoReason);
    SettleGrows(s.store, c.primary, Elapsed(c.connectedMs, inp.now), NoReason);
    SettleGrows(FinalizePrimary(s, inp.now, NoReason).store, c.held, c.heldSeconds, NoReason);
  }

  lemma SettleGrows(st: Store, leg: Leg, seconds: u32, reason: Reason)
    ensures var r := Settle(st, leg, seconds, reason);
      && |r.ledger| == |st.ledger| + (if seconds == 0 then 0 else 1)
      && |r.closings| == |st.closings| + (if leg.recordId == 0 then 0 else 1)
  {}
}
