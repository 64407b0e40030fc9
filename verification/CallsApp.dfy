// The call fields of app_t and the functions that update them in place
// (src/apps/calls_app.c). Each method is proved to make of the fields exactly
// what the matching function of CallSession makes of the session.

module CallsApp {
  import opened Wrappers
  import opened Timebase
  import opened CallTypes
  import opened CallStore
  import opened CallSession

  // --- Loops over the leg snapshot ---

  method WaitingLegByRefLoop(w: Waiting, snap: Snapshot) returns (r: Found)
    ensures r == WaitingLegByRef(w, snap)
  {
    var legs := snap.legs;
    if w.id != 0 && w.generation != 0 {
      for i := 0 to |legs|
        invariant FirstLeg(legs, SameRef(w)) == FirstLeg(legs[i..], SameRef(w))
      {
        var leg := legs[i];
        if leg.id == w.id && leg.generation == w.generation {
          return At(leg);
        }
      }
    }
    if w.episode == 0 {
      return Absent;
    }
    var found: Option<LegSnapshot> := None;
    for i := 0 to |legs|
      invariant OnlyLeg(legs, SameEpisode(w)) ==
        var rest := OnlyLeg(legs[i..], SameEpisode(w));
        if found.None? then rest else if rest == Absent then At(found.value) else Ambiguous
    {
      var leg := legs[i];
      if leg.episode == w.episode {
        if found.Some? {
          return Ambiguous;
        }
        found := Some(leg);
      }
    }
    r := if found.None? then Absent else At(found.value);
  }

  // The one presenting leg that may be the waiting caller.
  method CandidateLoop(w: Waiting, legs: seq<LegSnapshot>) returns (r: Found)
    ensures r == OnlyLeg(legs, Candidate(w))
  {
    ghost var fits := Candidate(w);
    var candidate: Option<LegSnapshot> := None;
    for i := 0 to |legs|
      invariant OnlyLeg(legs, fits) ==
        var rest := OnlyLeg(legs[i..], fits);
        if candidate.None? then rest else if rest == Absent then At(candidate.value) else Ambiguous
    {
      var leg := legs[i];
      if leg.pendingRemoval || !Presenting(leg) {
        continue;
      }
      if w.episode != 0 && leg.episode != 0 && leg.episode != w.episode {
        continue;
      }
      if candidate.Some? {
        return Ambiguous;
      }
      candidate := Some(leg);
    }
    r := if candidate.None? then Absent else At(candidate.value);
  }

  method CaptureWaitingLoop(w: Waiting, snap: Snapshot) returns (r: Waiting)
    ensures r == CaptureWaiting(w, snap)
  {
    r := w;
    if snap.overflow {
      return;
    }
    if r.episode == 0 && snap.pendingIncoming && snap.alertObserved {
      r := r.(episode := snap.pendingEpisode);
    }
    var byRef := WaitingLegByRefLoop(r, snap);
    if byRef == Ambiguous {
      return;
    }
    var candidate: Option<LegSnapshot> := if byRef.At? then Some(byRef.leg) else None;
    if byRef == Absent {
      var only := CandidateLoop(r, snap.legs);
      if only == Ambiguous {
        return;
      }
      candidate := if only.At? then Some(only.leg) else None;
    }
    if candidate.None? || candidate.value.pendingRemoval || !Presenting(candidate.value) {
      return;
    }
    var leg := candidate.value;
    r := r.(id := leg.id, generation := leg.generation);
    if leg.episode != 0 {
      r := r.(episode := leg.episode);
    }
  }

  class App {
    var route: Route
    var phase: Phase
    var slots: Slots
    var incoming: Incoming
    var waiting: Waiting
    var asked: Asked
    var survivor: Survivor
    var setup: CallSetup
    var seen: Seen
    var localHangup: bool
    var resultArmed: bool
    var missedCount: u8
    var nextCaller: nat
    var store: Store
    var requests: seq<Request>

    function State(): Session
      reads this
    {
      Session(route, phase, slots, incoming, waiting, asked, survivor, setup, seen, localHangup, resultArmed,
              missedCount, nextCaller, store, requests)
    }

    constructor (store: Store)
      ensures State() == Session(Standby, Setup, BLANK_SLOTS, NOT_INCOMING, NO_WAITING, NOTHING_ASKED,
                                 NO_SURVIVOR, NO_SETUP, Seen(Idle, NoResult, false, 0), false, false,
                                 0, 0, store, [])
    {
      route, phase := Standby, Setup;
      slots := BLANK_SLOTS;
      incoming, waiting, asked := NOT_INCOMING, NO_WAITING, NOTHING_ASKED;
      survivor, setup, seen := NO_SURVIVOR, NO_SETUP, Seen(Idle, NoResult, false, 0);
      localHangup, resultArmed, missedCount, nextCaller := false, false, 0, 0;
      this.store, requests := store, [];
    }

    // --- Accounting ---

    method CallAccountingAdd(list: CallList, elapsed: u32)
      modifies this`store
      ensures store == AddSeconds(old(store), list, elapsed)
    {
      if elapsed == 0 {
        return;
      }
      var t := store.totals;
      t := t.(last := elapsed);
      t := t.(all := if U32_MAX - t.all < elapsed then U32_MAX else t.all + elapsed);
      if list == Received {
        t := t.(received := if U32_MAX - t.received < elapsed then U32_MAX else t.received + elapsed);
      } else if list == Dialled {
        t := t.(dialled := if U32_MAX - t.dialled < elapsed then U32_MAX else t.dialled + elapsed);
      }
      store := store.(totals := t, ledger := store.ledger + [Charge(list, elapsed)]);
    }

    // What finalizing either slot does to the store.
    method SettleLeg(leg: Leg, elapsed: u32, reason: Reason)
      modifies this`store
      ensures store == Settle(old(store), leg, elapsed, reason)
    {
      if elapsed != 0 {
        CallAccountingAdd(leg.list, elapsed);
      }
      if leg.recordId != 0 {
        store := store.(closings := store.closings + [Closing(leg.list, leg.recordId, elapsed, reason)]);
      }
    }

    method FinalizeCallRecord(now: u32, reason: Reason)
      modifies this`store, this`slots
      ensures State() == FinalizePrimary(old(State()), now, reason)
    {
      var elapsed: u32 := 0;
      if slots.connectedMs != 0 && TimeDiff(now, slots.connectedMs) > 0 {
        elapsed := TimeDiff(now, slots.connectedMs) / 1000;
      }
      SettleLeg(slots.primary, elapsed, reason);
      slots := slots.(primary := slots.primary.(recordId := 0), connectedMs := 0);
    }

    method FinalizeHeldCall()
      modifies this`store, this`slots
      ensures State() == FinalizeHeld(old(State()))
    {
      SettleLeg(slots.held, slots.heldSeconds, NoReason);
      slots := slots.(held := slots.held.(recordId := 0), heldSeconds := 0);
    }

    // The held party is gone: its record is closed and its slot emptied.
    method DropHeldLeg()
      modifies this`store, this`slots
      ensures State() == DropHeld(old(State()))
    {
      FinalizeHeldCall();
      slots := slots.(held := slots.held.(number := "", name := ""), secondary := false, onHold := false);
    }

    // --- Role changes ---

    method SwapCallDisplaySlots(now: u32)
      modifies this`slots
      ensures State() == SwapSlots(old(State()), now)
    {
      var current: u32 := 0;
      if slots.connectedMs != 0 && TimeDiff(now, slots.connectedMs) > 0 {
        current := TimeDiff(now, slots.connectedMs) / 1000;
      }
      var oldLeg := slots.primary;
      slots := slots.(primary := slots.held, connectedMs := ArmStamp(Sub32(now, Wrap(slots.heldSeconds * 1000))),
                      held := oldLeg, heldSeconds := current);
    }

    method PromoteHeldLegToActive(now: u32, reason: Reason)
      modifies this
      ensures State() == PromoteHeld(old(State()), now, reason)
    {
      FinalizeCallRecord(now, reason);
      slots := slots.(primary := slots.held, connectedMs := ArmStamp(Sub32(now, Wrap(slots.heldSeconds * 1000))),
                      held := slots.held.(number := "", name := "", recordId := 0), heldSeconds := 0);
      slots := slots.(secondary := false, onHold := false);
      survivor := Survivor(false, 0, 0);
    }

    method RecordReceivedCall(newId: RecordId, caller: nat)
      modifies this`slots, this`store
      ensures State() == RecordReceived(old(State()), newId, caller)
    {
      slots := slots.(primary := slots.primary.(list := Received, recordId := 0));
      if slots.primary.number != "" {
        store := store.(
          register := store.register + [Entry(Received, slots.primary.number, slots.primary.name, caller)]);
        slots := slots.(primary := slots.primary.(recordId := newId));
      }
    }

    method EstablishTwoCallFromWaiting(now: u32, newId: RecordId)
      modifies this
      ensures State() == EstablishTwoCall(old(State()), now, newId)
    {
      var elapsed: u32 := 0;
      if slots.connectedMs != 0 && TimeDiff(now, slots.connectedMs) > 0 {
        elapsed := TimeDiff(now, slots.connectedMs) / 1000;
      }
      slots := slots.(held := slots.primary, heldSeconds := elapsed);
      slots := slots.(primary := slots.primary.(number := waiting.number, name := waiting.name));
      RecordReceivedCall(newId, waiting.caller);
      waiting := NO_WAITING;
      slots := slots.(secondary := true, onHold := true, connectedMs := ArmStamp(now));
    }

    method CallSessionReset()
      modifies this
      ensures State() == ResetSession(old(State()))
    {
      slots := BLANK_SLOTS;
      phase := Setup;
      incoming := NOT_INCOMING;
      ForgetRequests();
      localHangup, resultArmed := false, false;
    }

    method ForgetRequests()
      modifies this`waiting, this`asked, this`survivor, this`setup
      ensures State() == old(State()).(
        waiting := NO_WAITING, asked := NOTHING_ASKED, survivor := NO_SURVIVOR, setup := NO_SETUP)
    {
      waiting := NO_WAITING;
      asked := NOTHING_ASKED;
      survivor := NO_SURVIVOR;
      setup := NO_SETUP;
    }

    method ConnectCall(now: u32)
      modifies this
      ensures State() == Connect(old(State()), now)
    {
      route := Call;
      phase := Live;
      resultArmed := true;
      slots := slots.(connectedMs := ArmStamp(now));
      setup := setup.(failureMs := 0, failureResult := NoResult);
      localHangup := false;
    }

    method OpenIncomingCall(number: string, name: string, now: u32,
                            withheld: bool, diverted: bool, caller: nat)
      modifies this
      ensures State() == OpenIncoming(old(State()), number, name, now, withheld, diverted, caller)
    {
      CallSessionReset();
      slots := slots.(primary := slots.primary.(number := number, name := name));
      route := IncomingCall;
      incoming := incoming.(active := true, caller := caller);
      setup := setup.(startedMs := now);
      incoming := incoming.(withheld := withheld, diverted := diverted);
    }

    method LogMissed(newId: RecordId)
      modifies this`store, this`slots, this`incoming, this`missedCount
      ensures State() == LogMissedIncoming(old(State()), newId)
    {
      store := store.(
        register := store.register + [Entry(Missed, slots.primary.number, slots.primary.name, incoming.caller)]);
      slots := slots.(primary := slots.primary.(recordId := newId, list := Missed));
      incoming := incoming.(recorded := true);
      if missedCount < 255 {
        missedCount := missedCount + 1;
      }
    }

    method OpenMissedCallNotice()
      modifies this
      ensures State() == MissedNotice(old(State()))
    {
      route := if missedCount == 0 then Standby else Elsewhere;
    }

    method CloseEndedCall(now: u32, newId: RecordId, reason: Reason)
      modifies this
      ensures State() ==
        var s := old(State());
        if s.incoming.active && !s.incoming.recorded && reason == WasMissed
        then MissedNotice(LogMissedIncoming(s, newId))
        else FinalizeHeld(FinalizePrimary(s, now, reason)).(route := Standby)
    {
      if incoming.active && !incoming.recorded && reason == WasMissed {
        LogMissed(newId);
        OpenMissedCallNotice();
      } else {
        FinalizeCallRecord(now, reason);
        FinalizeHeldCall();
        route := Standby;
      }
    }

    method EndCallNow(now: u32, newId: RecordId, local: bool)
      modifies this
      ensures State() == EndCall(old(State()), now, newId, local)
    {
      var reason := if local then NoReason else WasUnreachable;
      if phase == Live {
        reason := NoReason;
      } else if incoming.active && !incoming.recorded {
        reason := if local then WasRejected else WasMissed;
      }
      CloseEndedCall(now, newId, reason);
      if local {
        requests := requests + [Hangup];
      }
      CallSessionReset();
      if local {
        localHangup := true;
      }
    }

    // --- Dialling a second party ---

    method CallNewcallSnapshot(now: u32) returns (p: Preserve)
      ensures p == SnapshotLive(State(), now)
    {
      var seconds: u32 := 0;
      if slots.connectedMs != 0 && TimeDiff(now, slots.connectedMs) > 0 {
        seconds := TimeDiff(now, slots.connectedMs) / 1000;
      }
      p := Preserve(slots.primary, seconds, waiting);
    }

    method CallNewcallRestoreHeld(p: Preserve)
      modifies this`slots, this`waiting
      ensures State() == RestoreHeld(old(State()), p)
    {
      slots := slots.(held := p.held, heldSeconds := p.heldSeconds, secondary := true, onHold := true);
      if p.waiting.pending {
        waiting := p.waiting;
      }
    }

    method RollbackFailedNewCall(result: CallResult, inp: PollInput)
      modifies this
      ensures State() == RollbackNewCall(old(State()), result, inp)
    {
      var st := inp.status;
      requests := requests + [Abandon];
      PromoteHeldLegToActive(inp.now, ReasonFor(result, st.registered));
      ResumeLive();
      if st.callState == Active && st.onHold && st.activeId != 0 {
        survivor := Survivor(true, st.activeId, Add32(inp.now, SURVIVOR_SETTLE_MS));
      }
    }

    method CancelNewCallSetup(st: Status, now: u32, admitted: bool) returns (handled: bool)
      modifies this
      ensures handled <==> SettingUpSecond(old(State()))
      ensures State() == if handled then CancelNewCall(old(State()), st, now, admitted) else old(State())
    {
      if phase != Setup || !slots.secondary {
        return false;
      }
      handled := true;
      var id := setup.newActiveRef;
      if id != 0 && st.callState == Active && st.activeId != 0 && st.activeId != id {
        if !admitted {
          return;
        }
        requests := requests + [ReleaseLeg(st.activeId)];
      }
      AbandonNewCall(id, now);
    }

    method AbandonNewCall(id: u8, now: u32)
      modifies this
      ensures State() ==
        var s := old(State());
        var r := PromoteHeld(s, now, NoReason).(
          requests := s.requests + [Abandon], phase := Live, resultArmed := true, route := Call,
          setup := s.setup.(newActiveRef := 0, failureMs := 0, failureResult := NoResult));
        if id != 0 then ArmSurvivor(r, id, now) else r
    {
      requests := requests + [Abandon];
      PromoteHeldLegToActive(now, NoReason);
      ResumeLive();
      setup := setup.(failureMs := 0, failureResult := NoResult);
      ReturnToCall(id, now);
    }

    method ReturnToCall(id: u8, now: u32)
      modifies this`survivor, this`route
      ensures State() ==
        var s := old(State());
        if id != 0 then ArmSurvivor(s, id, now).(route := Call) else s.(route := Call)
    {
      if id != 0 {
        survivor := Survivor(true, id, Add32(now, SURVIVOR_SETTLE_MS));
      }
      route := Call;
    }

    // Back to the one party that is left.
    method ResumeLive()
      modifies this`phase, this`setup, this`resultArmed
      ensures State() ==
        var s := old(State());
        s.(phase := Live, setup := s.setup.(newActiveRef := 0), resultArmed := true)
    {
      phase := Live;
      setup := setup.(newActiveRef := 0);
      resultArmed := true;
    }

    // --- What the user asks for ---

    method AnswerIncomingCall(now: u32, admitted: bool)
      modifies this`requests, this`incoming, this`resultArmed, this`setup
      ensures State() == AnswerIncoming(old(State()), now, admitted)
    {
      if incoming.answerPending || !admitted {
        return;
      }
      requests := requests + [Answer];
      incoming := incoming.(answerPending := true);
      resultArmed := true;
      setup := setup.(startedMs := now);
    }

    method RejectIncomingCall(newId: RecordId)
      modifies this
      ensures State() == RejectIncoming(old(State()), newId)
    {
      if !incoming.recorded {
        LogMissed(newId);
      }
      requests := requests + [Hangup];
      OpenMissedCallNotice();
      CallSessionReset();
      localHangup := true;
    }

    method AnswerWaitingCall(admitted: bool)
      modifies this`requests, this`asked, this`route
      ensures State() == AnswerWaiting(old(State()), admitted)
      ensures slots == old(slots) && store == old(store) && waiting == old(waiting) && phase == old(phase)
    {
      if !waiting.pending || !admitted {
        return;
      }
      requests := requests + [WaitingAnswer];
      asked := asked.(action := true);
      route := Call;
    }

    method RejectWaitingCall()
      modifies this`requests, this`asked, this`route
      ensures State() == RejectWaiting(old(State()))
      ensures slots == old(slots) && store == old(store) && waiting == old(waiting) && phase == old(phase)
    {
      if !waiting.pending {
        return;
      }
      requests := requests + [WaitingReject];
      asked := asked.(action := true);
      route := Call;
    }

    method SwapTheCalls()
      modifies this`requests, this`route
      ensures State() == SwapCalls(old(State()))
      ensures slots == old(slots) && store == old(store) && waiting == old(waiting) && phase == old(phase)
    {
      if !slots.secondary {
        return;
      }
      requests := requests + [SwapRequest];
      route := Call;
    }

    method HoldOrRetrieve()
      modifies this`survivor, this`requests, this`route
      ensures State() == ToggleHold(old(State()))
      ensures slots == old(slots) && store == old(store) && waiting == old(waiting) && phase == old(phase)
    {
      survivor := survivor.(pending := false, id := 0);
      requests := requests + [ManualHold];
      route := Call;
    }

    method ReleaseForegroundLeg(st: Status, now: u32, admitted: bool)
      modifies this`requests, this`asked, this`route
      ensures State() == ReleaseActiveWithWaiting(old(State()), st, now, admitted)
      ensures slots == old(slots) && store == old(store) && waiting == old(waiting) && phase == old(phase)
    {
      if asked.release || !st.waitingCall || st.activeId == 0 || !admitted {
        return;
      }
      requests := requests + [ReleaseLeg(st.activeId)];
      asked := Asked(asked.action, true, st.activeId, Add32(now, WAITING_RELEASE_RETRY_MS));
      route := Call;
    }

    method EndThis(st: Status, now: u32, newId: RecordId, admitted: bool)
      modifies this
      ensures State() == EndThisCall(old(State()), st, now, newId, admitted)
    {
      if waiting.pending && !slots.secondary {
        ReleaseForegroundLeg(st, now, admitted);
        return;
      }
      if slots.secondary {
        requests := requests + [ReleaseActive];
        route := Call;
        return;
      }
      EndCallNow(now, newId, true);
    }

    method EndAll(now: u32, newId: RecordId)
      modifies this
      ensures State() == EndAllCalls(old(State()), now, newId)
    {
      var hadWaiting := waiting.pending;
      EndCallNow(now, newId, true);
      if hadWaiting {
        requests := requests + [WaitingReject];
      }
    }

    method StartOutgoingCall(d: DialInput)
      modifies this
      ensures State() == StartOutgoing(old(State()), d)
    {
      if d.number == "" {
        route := Elsewhere;
        return;
      }
      var ready := d.simReady && d.status.registered;
      if ready && !d.admitted {
        route := Elsewhere;
        return;
      }
      if ready {
        requests := requests + [Dial(d.number)];
      }
      OpenSetup(d);
    }

    method OpenSetup(d: DialInput)
      modifies this
      ensures State() == ResetSession(old(State())).(
        route := Call, setup := DialSetup(d),
        slots := BLANK_SLOTS.(
          primary := Leg(d.number, if d.name == "" then d.contactName else d.name, Dialled,
                         if d.simReady then d.newRecordId else 0)))
    {
      CallSessionReset();
      slots := slots.(
        primary := Leg(d.number, if d.name == "" then d.contactName else d.name, Dialled,
                       if d.simReady then d.newRecordId else 0));
      route := Call;
      setup := setup.(newActiveRef := d.status.activeId, startedMs := d.now);
      ArmSetupFailure(d);
    }

    method ArmSetupFailure(d: DialInput)
      requires setup == CallSetup(d.status.activeId, d.now, 0, 0, NoResult)
      modifies this`setup
      ensures setup == DialSetup(d)
    {
      if !d.simReady {
        setup := setup.(failureMs := ArmStamp(Add32(d.now, CONNECT_DELAY_MS)), failureResult := NoResult);
        return;
      }
      if !d.status.registered {
        setup := setup.(failureMs := ArmStamp(Add32(d.now, NO_NETWORK_DELAY_MS)), failureResult := NoCarrier);
      }
    }

    // A second party is dialled from a live call, which is kept on hold meanwhile.
    method DialSecondParty(d: DialInput)
      modifies this
      ensures State() == DialSecond(old(State()), d)
    {
      var kept := CallNewcallSnapshot(d.now);
      StartOutgoingCall(d);
      if route == Call {
        CallNewcallRestoreHeld(kept);
      }
    }

    // --- poll_call_runtime, in its order ---

    method FollowTwoCall(st: Status, now: u32)
      modifies this
      ensures State() == NoteNetwork(ReconcileTwoCall(ShowHold(old(State()), st), st, now), st)
    {
      if phase == Live && !slots.secondary && slots.onHold != st.onHold {
        slots := slots.(onHold := st.onHold);
      }
      if slots.secondary && seen.secondHeld && phase == Live {
        if !st.secondHeld {
          if st.activeId != seen.activeId {
            PromoteHeldLegToActive(now, NoReason);
            if st.onHold && st.activeId != 0 {
              survivor := Survivor(true, st.activeId, Add32(now, SURVIVOR_SETTLE_MS));
            }
          } else {
            DropHeldLeg();
          }
        } else if st.activeId != seen.activeId {
          SwapCallDisplaySlots(now);
        }
      }
      seen := seen.(secondHeld := st.secondHeld, activeId := st.activeId);
    }

    method DropReleasedOriginal(st: Status, now: u32, surface: bool)
      modifies this
      ensures State() == OriginalReleased(old(State()), st, now, surface)
    {
      if surface && phase == Setup && slots.secondary && setup.newActiveRef != 0 &&
         st.callState == Dialing && st.activeId == 0 {
        var ms := TimeDiff(now, setup.startedMs);
        if ms > 0 {
          slots := slots.(heldSeconds := Add32(slots.heldSeconds, ms / 1000));
        }
        DropHeldLeg();
        setup := setup.(newActiveRef := 0);
      }
    }

    method RetrieveHeldSurvivor(inp: PollInput)
      modifies this`survivor, this`requests
      ensures State() == RetrieveSurvivor(old(State()), inp)
    {
      var st := inp.status;
      if !survivor.pending {
        return;
      }
      var context := phase == Live && !slots.secondary && survivor.id != 0;
      var isActive := st.callState == Active && st.activeId == survivor.id;
      if !context || st.callState == Idle || st.callState == Ringing {
        survivor := survivor.(pending := false, id := 0);
      } else if isActive && !st.onHold {
        if TimeDiff(inp.now, survivor.dueMs) >= 0 {
          survivor := survivor.(pending := false, id := 0);
        }
      } else if isActive && st.waitingCall {
        survivor := survivor.(dueMs := Add32(inp.now, SURVIVOR_RETRY_MS));
      } else if isActive && st.onHold && inp.releaseActivePending {
        survivor := survivor.(dueMs := Add32(inp.now, SURVIVOR_RETRY_MS));
      } else if isActive && st.onHold && inp.cleanupPending {
        survivor := survivor.(dueMs := Add32(inp.now, SURVIVOR_RETRY_MS));
      } else if isActive && st.onHold && TimeDiff(inp.now, survivor.dueMs) >= 0 {
        if inp.holdAdmitted {
          requests := requests + [AutoHold(survivor.id)];
          survivor := survivor.(pending := false, id := 0);
        } else {
          survivor := survivor.(dueMs := Add32(inp.now, SURVIVOR_RETRY_MS));
        }
      } else if st.callState == Active && st.activeId != survivor.id && !st.secondHeld &&
                TimeDiff(inp.now, survivor.dueMs) >= 0 {
        survivor := survivor.(pending := false, id := 0);
      }
    }

    method HandleWaiting(inp: PollInput) returns (done: bool)
      modifies this
      ensures WaitingStage(old(State()), inp) == if done then Done(State()) else More(State())
    {
      var st := inp.status;
      if st.waitingCall && phase == Live && !asked.action {
        done := PresentWaitingCall(inp);
        return;
      }
      if !st.waitingCall && waiting.pending {
        SettleWaiting(inp);
        return true;
      }
      return false;
    }

    method OpenWaitingOverlay(inp: PollInput)
      modifies this`waiting, this`nextCaller, this`route
      ensures State() == OpenWaiting(old(State()), inp)
    {
      var st := inp.status;
      waiting := Waiting(true, 0, 0, 0, st.incomingNumber, inp.contactName,
                         st.withheld, st.diverted, false, nextCaller);
      nextCaller := nextCaller + 1;
      route := Call;
    }

    method PresentWaitingCall(inp: PollInput) returns (changed: bool)
      modifies this`waiting, this`nextCaller, this`route
      ensures PresentWaiting(old(State()), inp) == if changed then Done(State()) else More(State())
    {
      var st := inp.status;
      waiting := CaptureWaitingLoop(waiting, inp.snapshot);
      if !waiting.pending || waiting.number != st.incomingNumber || waiting.name != inp.contactName {
        OpenWaitingOverlay(inp);
        waiting := CaptureWaitingLoop(waiting, inp.snapshot);
        return true;
      }
      changed := false;
      if waiting.withheld != st.withheld {
        waiting := waiting.(withheld := st.withheld);
        changed := true;
      }
      if waiting.diverted != st.diverted {
        waiting := waiting.(diverted := st.diverted);
        changed := true;
      }
    }

    method WaitingSurvivorState(snap: Snapshot) returns (r: Survival)
      ensures r == WaitingSurvival(waiting, snap)
    {
      if snap.overflow {
        return Unresolved;
      }
      var found := WaitingLegByRefLoop(waiting, snap);
      if found == Ambiguous {
        return Unresolved;
      }
      if found.At? {
        var leg := found.leg;
        if leg.pendingRemoval || leg.state == ReleasingLeg {
          return Unresolved;
        }
        if Presenting(leg) {
          return StillRinging;
        }
        return if leg.state == ActiveLeg || leg.state == HeldLeg then NowConnected else Unresolved;
      }
      if waiting.episode != 0 && snap.pendingIncoming && snap.alertObserved &&
         snap.pendingEpisode == waiting.episode {
        return StillRinging;
      }
      return Gone;
    }

    method SettleWaiting(inp: PollInput)
      modifies this
      ensures State() == ResolveWaiting(old(State()), inp)
    {
      var st := inp.status;
      if st.secondHeld && !slots.secondary {
        EstablishTwoCallFromWaiting(inp.now, inp.newRecordId);
      } else {
        var survival := WaitingSurvivorState(inp.snapshot);
        if survival == Unresolved {
          return;
        }
        FollowWaiting(survival, inp);
        return;
      }
      LeaveCallOptions();
    }

    method FollowWaiting(survival: Survival, inp: PollInput)
      requires survival != Unresolved
      modifies this
      ensures State() ==
        var r := old(State()).(asked := old(asked).(release := false, releaseId := 0));
        if survival == StillRinging then HandoffToIncoming(r, inp)
        else if survival == NowConnected then HandoffToConnected(r, inp)
        else WaitingGone(r, inp)
    {
      asked := asked.(release := false, releaseId := 0);
      if survival == StillRinging {
        HandoffWaitingToIncoming(inp);
        return;
      }
      if survival == NowConnected {
        HandoffWaitingToConnected(inp);
        return;
      }
      LoseWaiting(inp);
    }

    method LeaveCallOptions()
      modifies this`route
      ensures State() == LeaveOptions(old(State()))
    {
      if route == CallOptions {
        route := Call;
      }
    }

    method LoseWaiting(inp: PollInput)
      modifies this
      ensures State() == WaitingGone(old(State()), inp)
    {
      NoteWaitingMissedCall();
      waiting := NO_WAITING;
      if inp.status.callState == Ringing {
        FinalizeCallRecord(inp.now, NoReason);
        OpenFreshIncoming(inp);
        return;
      }
      LeaveCallOptions();
    }

    method NoteWaitingMissedCall()
      modifies this
      ensures State() == NoteWaitingMissed(old(State()))
    {
      if !waiting.pending || waiting.recorded {
        return;
      }
      store := store.(register := store.register + [Entry(Missed, waiting.number, waiting.name, waiting.caller)]);
      waiting := waiting.(recorded := true);
      if missedCount < 255 {
        missedCount := missedCount + 1;
      }
    }

    method OpenFreshIncoming(inp: PollInput)
      modifies this
      ensures State() == OpenNewIncoming(old(State()), inp)
    {
      var st := inp.status;
      OpenIncomingCall(st.incomingNumber, inp.contactName, inp.now, st.withheld, st.diverted, nextCaller);
      nextCaller := nextCaller + 1;
    }

    method HandoffWaitingToIncoming(inp: PollInput)
      modifies this
      ensures State() == HandoffToIncoming(old(State()), inp)
    {
      var w := waiting;
      FinalizeCallRecord(inp.now, NoReason);
      OpenIncomingCall(w.number, w.name, inp.now, w.withheld || inp.status.withheld,
                       w.diverted || inp.status.diverted, w.caller);
    }

    method HandoffWaitingToConnected(inp: PollInput)
      modifies this
      ensures State() == HandoffToConnected(old(State()), inp)
    {
      var w := waiting;
      FinalizeCallRecord(inp.now, NoReason);
      StartFromWaiting(w, inp);
      ConnectCall(inp.now);
      RecordReceivedCall(inp.newRecordId, w.caller);
      incoming := incoming.(recorded := true);
    }

    method StartFromWaiting(w: Waiting, inp: PollInput)
      modifies this
      ensures State() == ResetSession(old(State())).(
        slots := BLANK_SLOTS.(primary := BLANK_LEG.(number := w.number, name := w.name)),
        incoming := Incoming(true, false, false, w.withheld || inp.status.withheld,
                             w.diverted || inp.status.diverted, w.caller),
        setup := NO_SETUP.(startedMs := inp.now))
    {
      CallSessionReset();
      slots := slots.(primary := slots.primary.(number := w.number, name := w.name));
      incoming := Incoming(true, false, false, w.withheld || inp.status.withheld,
                           w.diverted || inp.status.diverted, w.caller);
      setup := setup.(startedMs := inp.now);
    }

    method EndShowingResult(now: u32, reason: Reason)
      modifies this
      ensures State() == EndWithResult(old(State()), now, reason)
    {
      FinalizeCallRecord(now, reason);
      route := Elsewhere;
      CallSessionReset();
    }

    method HandleFailure(inp: PollInput, surface: bool) returns (done: bool)
      modifies this
      ensures FailureStage(old(State()), inp, surface) == if done then Done(State()) else More(State())
    {
      if !(surface && phase == Setup && setup.failureMs != 0 && TimeDiff(inp.now, setup.failureMs) >= 0) {
        return false;
      }
      var result := setup.failureResult;
      setup := setup.(failureMs := 0);
      if slots.secondary {
        RollbackFailedNewCall(if result == NoResult then NoAnswer else result, inp);
        return true;
      }
      if result == NoCarrier || result == NoDialtone {
        EndShowingResult(inp.now, HadNoNetwork);
      } else if result == NoResult {
        EndShowingResult(inp.now, NoReason);
      } else {
        EndShowingResult(inp.now, ReasonFor(result, inp.status.registered));
      }
      return true;
    }

    method HandleRinging(inp: PollInput) returns (done: bool)
      modifies this
      ensures RingingStage(old(State()), inp) == if done then Done(State()) else More(State())
    {
      var st := inp.status;
      if st.callState != Ringing {
        return false;
      }
      if localHangup {
        return true;
      }
      if route == IncomingCall {
        if st.incomingNumber != "" && slots.primary.number != st.incomingNumber {
          slots := slots.(primary := slots.primary.(number := st.incomingNumber, name := inp.contactName));
        }
        incoming := incoming.(withheld := st.withheld, diverted := st.diverted);
        return true;
      }
      if route != Call {
        OpenFreshIncoming(inp);
        return true;
      }
      return false;
    }

    method AnswerNow(now: u32, newId: RecordId)
      modifies this
      ensures State() == RecordAnswered(Connect(old(State()), now), newId)
    {
      ConnectCall(now);
      if incoming.active && !incoming.recorded {
        RecordReceivedCall(newId, incoming.caller);
        incoming := incoming.(recorded := true);
      }
    }

    method HandleActive(inp: PollInput) returns (done: bool)
      modifies this
      ensures ActiveStage(old(State()), inp) == if done then Done(State()) else More(State())
    {
      var st := inp.status;
      if st.callState != Active {
        return false;
      }
      if route == Call && phase == Setup {
        if slots.secondary && (st.activeId == 0 || st.activeId == setup.newActiveRef) {
          if st.secondResult != NoResult && st.secondResult != Connected {
            RollbackFailedNewCall(st.secondResult, inp);
          } else if setup.activeSeenMs != 0 {
            RollbackFailedNewCall(NoResult, inp);
          } else if TimeDiff(inp.now, Add32(setup.startedMs, NEW_CALL_TIMEOUT_MS)) >= 0 {
            RollbackFailedNewCall(NoAnswer, inp);
          }
        } else if setup.activeSeenMs == 0 {
          setup := setup.(activeSeenMs := inp.now);
        } else if TimeDiff(inp.now, Add32(setup.activeSeenMs, ACTIVE_CONFIRM_MS)) >= 0 {
          AnswerNow(inp.now, inp.newRecordId);
        }
        return true;
      }
      if route == IncomingCall && incoming.answerPending {
        AnswerNow(inp.now, inp.newRecordId);
        return true;
      }
      return false;
    }

    method EndRinging(newId: RecordId)
      modifies this
      ensures State() == IncomingIdle(old(State()), newId)
    {
      if !incoming.recorded && !incoming.answerPending {
        LogMissed(newId);
        OpenMissedCallNotice();
        CallSessionReset();
        return;
      }
      route := Standby;
      CallSessionReset();
    }

    method HandleIdle(inp: PollInput, surface: bool, previous: CallState) returns (done: bool)
      modifies this
      ensures IdleStage(old(State()), inp, surface, previous) == if done then Done(State()) else More(State())
    {
      if inp.status.callState != Idle {
        return false;
      }
      localHangup := false;
      if route == IncomingCall {
        EndRinging(inp.newRecordId);
        return true;
      }
      if surface && resultArmed &&
         (previous == Active || previous == Answering || previous == Dialing) {
        if phase == Live {
          FinalizeCallRecord(inp.now, NoReason);
          FinalizeHeldCall();
          route := Standby;
          CallSessionReset();
        } else {
          EndShowingResult(inp.now, ReasonFor(inp.status.lastResult, inp.status.registered));
        }
        return true;
      }
      return false;
    }

    method PollCallRuntime(inp: PollInput)
      modifies this
      ensures State() == Poll(old(State()), inp)
    {
      var st := inp.status;
      var previous := seen.state;
      var surface := CallSurface(route);
      ghost var s0 := State();
      FollowNetwork(inp, surface);
      ghost var r := State();
      assert Poll(s0, inp) == Conclude(r, inp, surface, previous);
      FinishPoll(inp, surface, previous);
    }

    method ArmCallResult(st: Status, surface: bool)
      modifies this`resultArmed
      ensures State() == ArmResult(old(State()), st, surface)
    {
      if surface && phase == Setup &&
         (st.callState == Dialing || st.callState == Answering || st.callState == Active) {
        resultArmed := true;
      }
    }

    method ExpireWaitingRequests(st: Status, now: u32)
      modifies this`asked
      ensures asked == ExpireAsked(old(asked), st, now)
    {
      if asked.release && st.waitingCall && st.activeId == asked.releaseId &&
         TimeDiff(now, asked.retryMs) >= 0 {
        asked := asked.(release := false, releaseId := 0);
      }
      if !st.waitingCall && asked.action {
        asked := asked.(action := false);
      }
    }

    method FollowNetwork(inp: PollInput, surface: bool)
      modifies this
      ensures State() == Reconcile(old(State()), inp, surface)
    {
      var st := inp.status;
      seen := seen.(state := st.callState, result := st.lastResult);
      FollowTwoCall(st, inp.now);
      DropReleasedOriginal(st, inp.now, surface);
      RetrieveHeldSurvivor(inp);
      ArmCallResult(st, surface);
      ExpireWaitingRequests(st, inp.now);
    }

    method FinishPoll(inp: PollInput, surface: bool, previous: CallState)
      modifies this
      ensures State() == Conclude(old(State()), inp, surface, previous)
    {
      var st := inp.status;
      var done := HandleWaiting(inp);
      if done {
        return;
      }
      done := HandleFailure(inp, surface);
      if done {
        return;
      }
      done := HandleRinging(inp);
      if done {
        return;
      }
      done := HandleActive(inp);
      if done {
        return;
      }
      done := HandleIdle(inp, surface, previous);
      if done {
        return;
      }
      if st.lastResult != NoResult && st.lastResult != Connected && resultArmed &&
         surface && phase == Setup {
        EndShowingResult(inp.now, ReasonFor(st.lastResult, st.registered));
      }
    }
  }
}
