// The waiting caller: when the captured leg counts as gone, and why one
// presentation can leave at most one register entry, missed or received.

module CallWaiting {
  import opened Timebase
  import opened CallTypes
  import opened CallSession
  import opened CallEvents

  // --- Identity ---

  lemma {:induction false} FirstLegMeaning(legs: seq<LegSnapshot>, p: LegSnapshot -> bool)
    ensures match FirstLeg(legs, p)
      case At(leg) => leg in legs && p(leg)
      case Absent => forall leg | leg in legs :: !p(leg)
      case Ambiguous => false
  {
    if legs != [] && !p(legs[0]) {
      FirstLegMeaning(legs[1..], p);
    }
  }

  lemma {:induction false} OnlyLegMeaning(legs: seq<LegSnapshot>, p: LegSnapshot -> bool)
    ensures match OnlyLeg(legs, p)
      case Absent => forall leg | leg in legs :: !p(leg)
      case At(leg) => exists i | 0 <= i < |legs| :: legs[i] == leg && p(leg) &&
                        forall j | 0 <= j < |legs| && j != i :: !p(legs[j])
      case Ambiguous => exists i, j | 0 <= i < j < |legs| :: p(legs[i]) && p(legs[j])
  {
    if legs != [] {
      var rest := legs[1..];
      OnlyLegMeaning(rest, p);
      match OnlyLeg(rest, p) {
        case Absent =>
          if p(legs[0]) {
            assert forall j | 0 < j < |legs| :: legs[j] == rest[j - 1] && rest[j - 1] in rest;
          }
        case At(leg) =>
          var i :| 0 <= i < |rest| && rest[i] == leg && p(leg) &&
                   forall j | 0 <= j < |rest| && j != i :: !p(rest[j]);
          assert legs[i + 1] == leg;
          if !p(legs[0]) {
            forall j | 0 <= j < |legs| && j != i + 1 ensures !p(legs[j]) {
              if j > 0 { assert legs[j] == rest[j - 1]; }
            }
          }
        case Ambiguous =>
          var i, j :| 0 <= i < j < |rest| && p(rest[i]) && p(rest[j]);
          assert legs[i + 1] == rest[i] && legs[j + 1] == rest[j];
      }
    }
  }

  predicate CarriesRef(w: Waiting, leg: LegSnapshot) {
    w.id != 0 && w.generation != 0 && leg.id == w.id && leg.generation == w.generation
  }

  predicate CarriesEpisode(w: Waiting, leg: LegSnapshot) {
    w.episode != 0 && leg.episode == w.episode
  }

  predicate PendingEpisode(w: Waiting, snap: Snapshot) {
    w.episode != 0 && snap.pendingIncoming && snap.alertObserved && snap.pendingEpisode == w.episode
  }

  lemma AbsentExactly(w: Waiting, snap: Snapshot)
    ensures WaitingLegByRef(w, snap) == Absent <==>
      forall leg | leg in snap.legs :: !CarriesRef(w, leg) && !CarriesEpisode(w, leg)
  {
    var ref, episode := SameRef(w), SameEpisode(w);
    FirstLegMeaning(snap.legs, ref);
    OnlyLegMeaning(snap.legs, episode);
    var byRef := if w.id != 0 && w.generation != 0 then FirstLeg(snap.legs, ref) else Absent;
    if byRef.At? {
      assert CarriesRef(w, byRef.leg);
    } else {
      assert forall leg | leg in snap.legs :: !CarriesRef(w, leg);
      if w.episode != 0 {
        match OnlyLeg(snap.legs, episode) {
          case Absent => assert forall leg | leg in snap.legs :: !CarriesEpisode(w, leg);
          case At(leg) => assert leg in snap.legs && CarriesEpisode(w, leg);
          case Ambiguous =>
            var i, j :| 0 <= i < j < |snap.legs| && episode(snap.legs[i]) && episode(snap.legs[j]);
            assert snap.legs[i] in snap.legs && CarriesEpisode(w, snap.legs[i]);
        }
      }
    }
  }

  lemma GoneExactly(w: Waiting, snap: Snapshot)
    ensures WaitingSurvival(w, snap) == Gone <==>
      && !snap.overflow
      && (forall leg | leg in snap.legs :: !CarriesRef(w, leg) && !CarriesEpisode(w, leg))
      && !PendingEpisode(w, snap)
  {
    AbsentExactly(w, snap);
  }

  // --- One entry per presentation ---

  predicate Unlogged(register: seq<Entry>, caller: nat) {
    forall e | e in register :: e.caller != caller
  }

  // Every entry has its own presentation, and those not yet issued have none.
  predicate OnceEach(register: seq<Entry>, next: nat) {
    && (forall i, j | 0 <= i < j < |register| :: register[i].caller != register[j].caller)
    && forall e | e in register :: e.caller < next
  }

  // What every step keeps.
  predicate Tidy(s: Session) {
    var register, w, inc := s.store.register, s.waiting, s.incoming;
    && OnceEach(register, s.nextCaller)
    && (w.pending ==> !w.recorded && w.caller < s.nextCaller && Unlogged(register, w.caller))
    && (inc.active && !inc.recorded ==> inc.caller < s.nextCaller && Unlogged(register, inc.caller))
    && (s.route == IncomingCall ==> inc.active && s.phase == Setup)
    && (s.phase == Live || w.pending || s.slots.secondary ==> !inc.active || inc.recorded)
  }

  lemma AppendOnce(register: seq<Entry>, next: nat, e: Entry)
    requires OnceEach(register, next) && e.caller < next && Unlogged(register, e.caller)
    ensures OnceEach(register + [e], next)
    ensures forall c | c != e.caller && Unlogged(register, c) :: Unlogged(register + [e], c)
  {}

  // The slots, the settling and the requests do not matter to Tidy.
  lemma TidyFrame(s: Session, t: Session)
    requires Tidy(s)
    requires t.store.register == s.store.register && t.nextCaller == s.nextCaller
    requires t.waiting == s.waiting && t.incoming == s.incoming
    requires t.route == s.route && t.phase == s.phase && (t.slots.secondary ==> s.slots.secondary)
    ensures Tidy(t)
  {}

  lemma FreshNumbersUnlogged(s: Session)
    requires OnceEach(s.store.register, s.nextCaller)
    ensures OnceEach(s.store.register, s.nextCaller + 1) && Unlogged(s.store.register, s.nextCaller)
  {}

  lemma ReconcileTidy(s: Session, inp: PollInput, surface: bool)
    requires Tidy(s)
    ensures Tidy(Reconcile(s, inp, surface))
    ensures Reconcile(s, inp, surface).route == s.route
  {
    var st := inp.status;
    var noted := ShowHold(s.(seen := s.seen.(state := st.callState, result := st.lastResult)), st);
    assert ReconcileTwoCall(noted, st, inp.now).store.register == s.store.register;
    var two := NoteNetwork(ReconcileTwoCall(noted, st, inp.now), st);
    assert OriginalReleased(two, st, inp.now, surface).store.register == s.store.register;
    TidyFrame(s, Reconcile(s, inp, surface));
  }

  lemma PresentTidy(s: Session, inp: PollInput)
    requires Tidy(s) && s.phase == Live
    ensures Tidy(PresentWaiting(s, inp).s)
  {
    FreshNumbersUnlogged(s);
  }

  lemma FinalizeTidy(s: Session, now: u32, reason: Reason)
    requires Tidy(s)
    ensures Tidy(FinalizePrimary(s, now, reason))
    ensures FinalizePrimary(s, now, reason).store.register == s.store.register
  {
    TidyFrame(s, FinalizePrimary(s, now, reason));
  }

  // A reset session owes no entry, whatever screen is up.
  lemma ResetTidy(s: Session, route: Route)
    requires OnceEach(s.store.register, s.nextCaller) && route != IncomingCall
    ensures Tidy(ResetSession(s).(route := route))
  {}

  lemma OpenIncomingTidy(s: Session, number: string, name: string, now: u32,
                         withheld: bool, diverted: bool, caller: nat)
    requires OnceEach(s.store.register, s.nextCaller)
    requires caller < s.nextCaller && Unlogged(s.store.register, caller)
    ensures Tidy(OpenIncoming(s, number, name, now, withheld, diverted, caller))
  {}

  lemma OpenNewIncomingTidy(s: Session, inp: PollInput)
    requires OnceEach(s.store.register, s.nextCaller)
    ensures Tidy(OpenNewIncoming(s, inp))
  {
    FreshNumbersUnlogged(s);
    var st := inp.status;
    OpenIncomingTidy(s.(nextCaller := s.nextCaller + 1), st.incomingNumber, inp.contactName, inp.now,
                     st.withheld, st.diverted, s.nextCaller);
  }

  lemma EstablishTidy(s: Session, now: u32, newId: RecordId)
    requires Tidy(s) && s.waiting.pending
    ensures Tidy(LeaveOptions(EstablishTwoCall(s, now, newId)))
  {
    var w := s.waiting;
    AppendOnce(s.store.register, s.nextCaller, Entry(Received, w.number, w.name, w.caller));
  }

  lemma HandoffConnectedTidy(s: Session, inp: PollInput)
    requires Tidy(s) && s.waiting.pending
    ensures Tidy(HandoffToConnected(s, inp))
  {
    var w := s.waiting;
    FinalizeTidy(s, inp.now, NoReason);
    AppendOnce(s.store.register, s.nextCaller, Entry(Received, w.number, w.name, w.caller));
  }

  lemma GoneTidy(s: Session, inp: PollInput)
    requires Tidy(s) && s.waiting.pending
    ensures Tidy(WaitingGone(s, inp))
  {
    var w := s.waiting;
    AppendOnce(s.store.register, s.nextCaller, Entry(Missed, w.number, w.name, w.caller));
    var m := NoteWaitingMissed(s).(waiting := NO_WAITING);
    assert Tidy(m);
    FinalizeTidy(m, inp.now, NoReason);
    OpenNewIncomingTidy(FinalizePrimary(m, inp.now, NoReason), inp);
  }

  lemma ResolveTidy(s: Session, inp: PollInput)
    requires Tidy(s) && s.waiting.pending
    ensures Tidy(ResolveWaiting(s, inp))
  {
    var w := s.waiting;
    var r := s.(asked := s.asked.(release := false, releaseId := 0));
    TidyFrame(s, r);
    FinalizeTidy(r, inp.now, NoReason);
    EstablishTidy(s, inp.now, inp.newRecordId);
    HandoffConnectedTidy(r, inp);
    GoneTidy(r, inp);
    OpenIncomingTidy(FinalizePrimary(r, inp.now, NoReason), w.number, w.name, inp.now,
                     w.withheld || inp.status.withheld, w.diverted || inp.status.diverted, w.caller);
  }

  lemma EndWithResultTidy(s: Session, now: u32, reason: Reason)
    requires Tidy(s)
    ensures Tidy(EndWithResult(s, now, reason))
  {
    FinalizeTidy(s, now, reason);
    ResetTidy(FinalizePrimary(s, now, reason), Elsewhere);
  }

  // A session with a second leg being dialled has no unanswered incoming call.
  lemma RollbackTidy(s: Session, result: CallResult, inp: PollInput)
    requires Tidy(s) && s.route != IncomingCall && s.slots.secondary
    ensures Tidy(RollbackNewCall(s, result, inp))
  {
    var r := RollbackNewCall(s, result, inp);
    assert r.store.register == s.store.register && r.phase == Live;
  }

  lemma AnsweredTidy(s: Session, now: u32, newId: RecordId)
    requires Tidy(s)
    ensures Tidy(RecordAnswered(Connect(s, now), newId))
  {
    var leg := s.slots.primary;
    if s.incoming.active && !s.incoming.recorded {
      AppendOnce(s.store.register, s.nextCaller, Entry(Received, leg.number, leg.name, s.incoming.caller));
    }
  }

  lemma LogMissedTidy(s: Session, newId: RecordId)
    requires Tidy(s) && s.incoming.active && !s.incoming.recorded
    ensures var r := LogMissedIncoming(s, newId);
      Tidy(r) && r.nextCaller == s.nextCaller
  {
    var leg := s.slots.primary;
    AppendOnce(s.store.register, s.nextCaller, Entry(Missed, leg.number, leg.name, s.incoming.caller));
  }

  // Each stage of a poll, given what the stages before it left alone.
  predicate StageReady(s: Session, surface: bool) {
    Tidy(s) && (surface ==> s.route != IncomingCall)
  }

  lemma WaitingStageTidy(s: Session, inp: PollInput, surface: bool)
    requires StageReady(s, surface)
    ensures var o := WaitingStage(s, inp);
      Tidy(o.s) && (o.More? ==> StageReady(o.s, surface))
  {
    if inp.status.waitingCall && s.phase == Live && !s.asked.action {
      PresentTidy(s, inp);
    } else if !inp.status.waitingCall && s.waiting.pending {
      ResolveTidy(s, inp);
    }
  }

  lemma FailureStageTidy(s: Session, inp: PollInput, surface: bool)
    requires StageReady(s, surface)
    ensures var o := FailureStage(s, inp, surface);
      Tidy(o.s) && (o.More? ==> o.s == s)
  {
    var r := s.(setup := s.setup.(failureMs := 0));
    TidyFrame(s, r);
    var result := s.setup.failureResult;
    EndWithResultTidy(r, inp.now, FailureReason(result, inp.status.registered));
    if surface && s.slots.secondary {
      RollbackTidy(r, if result == NoResult then NoAnswer else result, inp);
    }
  }

  lemma RingingStageTidy(s: Session, inp: PollInput)
    requires Tidy(s)
    ensures var o := RingingStage(s, inp);
      Tidy(o.s) && (o.More? ==> o.s == s)
  {
    OpenNewIncomingTidy(s, inp);
  }

  lemma ActiveStageTidy(s: Session, inp: PollInput)
    requires Tidy(s)
    ensures var o := ActiveStage(s, inp);
      Tidy(o.s) && (o.More? ==> o.s == s)
  {
    AnsweredTidy(s, inp.now, inp.newRecordId);
    if s.route == Call && s.slots.secondary {
      AwaitSecondTidy(s, inp);
    }
  }

  lemma AwaitSecondTidy(s: Session, inp: PollInput)
    requires Tidy(s) && s.route == Call && s.slots.secondary
    ensures Tidy(AwaitSecond(s, inp))
  {
    RollbackTidy(s, inp.status.secondResult, inp);
    RollbackTidy(s, NoResult, inp);
    RollbackTidy(s, NoAnswer, inp);
  }

  lemma IncomingIdleTidy(s: Session, newId: RecordId)
    requires Tidy(s) && s.route == IncomingCall
    ensures Tidy(IncomingIdle(s, newId))
  {
    ResetTidy(s, Standby);
    if !s.incoming.recorded {
      LogMissedTidy(s, newId);
      var m := LogMissedIncoming(s, newId);
      ResetTidy(m, MissedNotice(m).route);
      assert ResetSession(MissedNotice(m)) == ResetSession(m).(route := MissedNotice(m).route);
    }
  }

  lemma IdleStageTidy(s: Session, inp: PollInput, surface: bool, previous: CallState)
    requires Tidy(s)
    ensures var o := IdleStage(s, inp, surface, previous);
      Tidy(o.s) && (o.More? ==> o.s.route == s.route)
  {
    var r := s.(localHangup := false);
    TidyFrame(s, r);
    if r.route == IncomingCall {
      IncomingIdleTidy(r, inp.newRecordId);
    } else {
      EndWithResultTidy(r, inp.now, ReasonFor(inp.status.lastResult, inp.status.registered));
      var f := FinalizeHeld(FinalizePrimary(r, inp.now, NoReason));
      assert f.store.register == r.store.register;
      ResetTidy(f, Standby);
    }
  }

  lemma ConcludeTidy(s: Session, inp: PollInput, surface: bool, previous: CallState)
    requires StageReady(s, surface)
    ensures Tidy(Conclude(s, inp, surface, previous))
  {
    WaitingStageTidy(s, inp, surface);
    var waited := WaitingStage(s, inp);
    if waited.More? {
      var w := waited.s;
      FailureStageTidy(w, inp, surface);
      RingingStageTidy(w, inp);
      ActiveStageTidy(w, inp);
      IdleStageTidy(w, inp, surface, previous);
      var idle := IdleStage(w, inp, surface, previous).s;
      EndWithResultTidy(idle, inp.now, ReasonFor(inp.status.lastResult, inp.status.registered));
    }
  }

  lemma PollTidy(s: Session, inp: PollInput)
    requires Tidy(s)
    ensures Tidy(Poll(s, inp))
  {
    var surface := CallSurface(s.route);
    ReconcileTidy(s, inp, surface);
    ConcludeTidy(Reconcile(s, inp, surface), inp, surface, s.seen.state);
  }

  lemma EndCallTidy(s: Session, now: u32, newId: RecordId)
    requires Tidy(s)
    ensures Tidy(EndCall(s, now, newId, true))
  {
    var f := FinalizeHeld(FinalizePrimary(s, now, EndReason(s, true)));
    assert f.store.register == s.store.register;
    ResetTidy(f, Standby);
    var r := ResetSession(f).(route := Standby);
    TidyFrame(r, EndCall(s, now, newId, true));
  }

  lemma DialTidy(s: Session, d: DialInput)
    requires Tidy(s)
    ensures Tidy(StartOutgoing(s, d))
    ensures Tidy(DialSecond(s, d))
  {
    if !DialRefused(d) {
      ResetTidy(s, Call);
      assert StartOutgoing(s, d).store.register == s.store.register;
    }
  }

  lemma RejectTidy(s: Session, newId: RecordId)
    requires Tidy(s) && s.route == IncomingCall
    ensures Tidy(RejectIncoming(s, newId))
  {
    if !s.incoming.recorded { LogMissedTidy(s, newId); }
    var m := if s.incoming.recorded then s else LogMissedIncoming(s, newId);
    var route := MissedNotice(m).route;
    ResetTidy(m, route);
    TidyFrame(ResetSession(m).(route := route), RejectIncoming(s, newId));
  }

  lemma CancelTidy(s: Session, st: Status, now: u32, admitted: bool)
    requires Tidy(s) && SettingUpSecond(s)
    ensures Tidy(CancelNewCall(s, st, now, admitted))
  {
    assert CancelNewCall(s, st, now, admitted).store.register == s.store.register;
  }

  lemma EndAllTidy(s: Session, now: u32, newId: RecordId)
    requires Tidy(s)
    ensures Tidy(EndAllCalls(s, now, newId))
  {
    EndCallTidy(s, now, newId);
    TidyFrame(EndCall(s, now, newId, true), EndAllCalls(s, now, newId));
  }

  lemma PressTidy(s: Session, e: Event)
    requires Tidy(s) && Offered(s, e)
    ensures Tidy(Press(s, e))
  {}

  lemma CommandTidy(s: Session, e: Event)
    requires Tidy(s) && Offered(s, e)
    ensures Tidy(Command(s, e))
  {
    match e
    case RejectEvent(newId) => RejectTidy(s, newId);
    case EndThisEvent(_, now, newId, _) => EndCallTidy(s, now, newId);
    case EndEvent(now, newId) => EndCallTidy(s, now, newId);
    case EndAllEvent(now, newId) => EndAllTidy(s, now, newId);
    case CancelEvent(st, now, admitted) => CancelTidy(s, st, now, admitted);
    case DialEvent(d) => DialTidy(s, d);
    case DialSecondEvent(d) => DialTidy(s, d);
    case _ =>
  }

  lemma StepTidy(s: Session, e: Event)
    requires Tidy(s) && Offered(s, e)
    ensures Tidy(Step(s, e))
  {
    if e.PollEvent? {
      PollTidy(s, e.inp);
    } else {
      PressTidy(s, e);
      CommandTidy(s, e);
    }
  }

  // Over any run of polls and key presses no presentation gets a second entry.
  lemma {:induction false} RunTidy(s: Session, es: seq<Event>)
    requires Tidy(s) && AllOffered(s, es)
    ensures Tidy(RunEvents(s, es))
    ensures forall i, j | 0 <= i < j < |RunEvents(s, es).store.register| ::
      RunEvents(s, es).store.register[i].caller != RunEvents(s, es).store.register[j].caller
    decreases |es|
  {
    if es != [] {
      StepTidy(s, es[0]);
      RunTidy(Step(s, es[0]), es[1..]);
    }
  }
}
