// The call session as a state: each function is what one C function of
// src/apps/calls_app.c makes of it. CallsApp holds the imperative counterparts.

module CallSession {
  import opened Timebase
  import opened CallTypes
  import opened CallStore

  const SURVIVOR_SETTLE_MS: u32 := 500
  const SURVIVOR_RETRY_MS: u32 := 250
  const ACTIVE_CONFIRM_MS: u32 := 250
  const CONNECT_DELAY_MS: u32 := 480
  const NO_NETWORK_DELAY_MS: u32 := 1200
  const WAITING_RELEASE_RETRY_MS: u32 := 60000
  const NEW_CALL_TIMEOUT_MS: u32 := 60000

  // --- Stamps and durations ---

  // 0 means "not armed", so a stamp that lands on 0 is moved to 1.
  function ArmStamp(stamp: u32): u32 {
    if stamp == 0 then 1 else stamp
  }

  // Whole seconds on the running call timer.
  function Elapsed(connectedMs: u32, now: u32): (r: u32)
    ensures r * 1000 < HALF
  {
    if connectedMs != 0 && TimeDiff(now, connectedMs) > 0
    then TimeDiff(now, connectedMs) / 1000 else 0
  }

  // The stamp that makes the timer read seconds now.
  function BackDated(now: u32, seconds: u32): u32 {
    ArmStamp(Sub32(now, Wrap(seconds * 1000)))
  }

  // --- The slots ---

  function Swapped(c: Slots, now: u32): Slots {
    c.(primary := c.held, connectedMs := BackDated(now, c.heldSeconds),
       held := c.primary, heldSeconds := Elapsed(c.connectedMs, now))
  }

  function Promoted(c: Slots, now: u32): Slots {
    Slots(c.held, BackDated(now, c.heldSeconds), VacatedHeld(c.held), 0, false, false)
  }

  function VacatedHeld(leg: Leg): Leg {
    leg.(number := "", name := "", recordId := 0)
  }

  function HeldDropped(c: Slots): Slots {
    c.(held := VacatedHeld(c.held), heldSeconds := 0, secondary := false, onHold := false)
  }

  // The party answered becomes primary and what was primary goes on hold.
  function Established(c: Slots, w: Waiting, now: u32, newId: RecordId): Slots {
    Slots(Leg(w.number, w.name, Received, if w.number == "" then 0 else newId), ArmStamp(now),
          c.primary, Elapsed(c.connectedMs, now), true, true)
  }

  // --- Finalizing and moving legs ---

  function FinalizePrimary(s: Session, now: u32, reason: Reason): (r: Session)
    ensures TotalsMatch(s.store) ==> TotalsMatch(r.store)
  {
    var c := s.slots;
    s.(slots := c.(primary := c.primary.(recordId := 0), connectedMs := 0),
       store := Settle(s.store, c.primary, Elapsed(c.connectedMs, now), reason))
  }

  function FinalizeHeld(s: Session): (r: Session)
    ensures TotalsMatch(s.store) ==> TotalsMatch(r.store)
  {
    var c := s.slots;
    s.(slots := c.(held := c.held.(recordId := 0), heldSeconds := 0),
       store := Settle(s.store, c.held, c.heldSeconds, NoReason))
  }

  function DropHeld(s: Session): (r: Session)
    ensures TotalsMatch(s.store) ==> TotalsMatch(r.store)
  {
    s.(slots := HeldDropped(s.slots),
       store := Settle(s.store, s.slots.held, s.slots.heldSeconds, NoReason))
  }

  function SwapSlots(s: Session, now: u32): Session {
    s.(slots := Swapped(s.slots, now))
  }

  function PromoteHeld(s: Session, now: u32, reason: Reason): (r: Session)
    ensures TotalsMatch(s.store) ==> TotalsMatch(r.store)
  {
    var c := s.slots;
    s.(slots := Promoted(c, now), survivor := NO_SURVIVOR,
       store := Settle(s.store, c.primary, Elapsed(c.connectedMs, now), reason))
  }

  // An answered call enters the Received list when it has a number.
  function WithReceived(st: Store, number: string, name: string, caller: nat): (r: Store)
    ensures TotalsMatch(st) ==> TotalsMatch(r)
  {
    if number == "" then st else Register(st, Entry(Received, number, name, caller))
  }

  function RecordReceived(s: Session, newId: RecordId, caller: nat): Session {
    var leg := s.slots.primary;
    s.(slots := s.slots.(
         primary := leg.(list := Received, recordId := if leg.number == "" then 0 else newId)),
       store := WithReceived(s.store, leg.number, leg.name, caller))
  }

  function EstablishTwoCall(s: Session, now: u32, newId: RecordId): Session {
    var w := s.waiting;
    s.(slots := Established(s.slots, w, now, newId),
       store := WithReceived(s.store, w.number, w.name, w.caller),
       waiting := NO_WAITING)
  }

  function ResetSession(s: Session): Session {
    s.(phase := Setup, slots := BLANK_SLOTS, incoming := NOT_INCOMING, waiting := NO_WAITING,
       asked := NOTHING_ASKED, survivor := NO_SURVIVOR, setup := NO_SETUP,
       localHangup := false, resultArmed := false)
  }

  function Connect(s: Session, now: u32): Session {
    s.(route := Call, phase := Live, resultArmed := true, localHangup := false,
       slots := s.slots.(connectedMs := ArmStamp(now)),
       setup := s.setup.(failureMs := 0, failureResult := NoResult))
  }

  // The answered incoming call enters the Received list once.
  function RecordAnswered(s: Session, newId: RecordId): Session {
    if s.incoming.active && !s.incoming.recorded then
      RecordReceived(s, newId, s.incoming.caller).(incoming := s.incoming.(recorded := true))
    else s
  }

  function OpenIncoming(s: Session, number: string, name: string, now: u32,
                        withheld: bool, diverted: bool, caller: nat): Session {
    ResetSession(s).(
      route := IncomingCall,
      slots := BLANK_SLOTS.(primary := BLANK_LEG.(number := number, name := name)),
      incoming := Incoming(true, false, false, withheld, diverted, caller),
      setup := NO_SETUP.(startedMs := now))
  }

  function OpenNewIncoming(s: Session, inp: PollInput): Session {
    var st := inp.status;
    OpenIncoming(s, st.incomingNumber, inp.contactName, inp.now, st.withheld, st.diverted,
                 s.nextCaller).(nextCaller := s.nextCaller + 1)
  }

  function OneMore(missed: u8): u8 {
    if missed < 255 then missed + 1 else 255
  }

  function MissedNotice(s: Session): Session {
    s.(route := if s.missedCount == 0 then Standby else Elsewhere)
  }

  // An unanswered incoming call enters the Missed list.
  function LogMissedIncoming(s: Session, newId: RecordId): Session {
    var leg := s.slots.primary;
    s.(store := Register(s.store, Entry(Missed, leg.number, leg.name, s.incoming.caller)),
       slots := s.slots.(primary := leg.(list := Missed, recordId := newId)),
       incoming := s.incoming.(recorded := true),
       missedCount := OneMore(s.missedCount))
  }

  function NoteWaitingMissed(s: Session): Session {
    var w := s.waiting;
    if !w.pending || w.recorded then s
    else s.(store := Register(s.store, Entry(Missed, w.number, w.name, w.caller)),
            waiting := w.(recorded := true),
            missedCount := OneMore(s.missedCount))
  }

  function ReasonFor(result: CallResult, registered: bool): Reason {
    match result
    case Busy => WasBusy
    case NoAnswer => WasNotAnswered
    case NoDialtone => HadNoNetwork
    case NoCarrier => if registered then WasUnreachable else HadNoNetwork
    case _ => NoReason
  }

  function EndReason(s: Session, local: bool): Reason {
    if s.phase == Live then NoReason
    else if s.incoming.active && !s.incoming.recorded then (if local then WasRejected else WasMissed)
    else if local then NoReason else WasUnreachable
  }

  function EndCall(s: Session, now: u32, newId: RecordId, local: bool): Session {
    var reason := EndReason(s, local);
    var ended :=
      if s.incoming.active && !s.incoming.recorded && reason == WasMissed
      then MissedNotice(LogMissedIncoming(s, newId))
      else FinalizeHeld(FinalizePrimary(s, now, reason)).(route := Standby);
    ResetSession(ended).(
      localHangup := local,
      requests := if local then s.requests + [Hangup] else s.requests)
  }

  function ArmSurvivor(s: Session, id: u8, now: u32): Session {
    s.(survivor := Survivor(true, id, Add32(now, SURVIVOR_SETTLE_MS)))
  }

  function RollbackNewCall(s: Session, result: CallResult, inp: PollInput): Session {
    var st := inp.status;
    var r := PromoteHeld(s, inp.now, ReasonFor(result, st.registered)).(
      phase := Live, resultArmed := true, setup := s.setup.(newActiveRef := 0),
      requests := s.requests + [Abandon]);
    if st.callState == Active && st.onHold && st.activeId != 0
    then ArmSurvivor(r, st.activeId, inp.now) else r
  }

  // --- The waiting caller's identity ---

  predicate Presenting(leg: LegSnapshot) {
    leg.state == IncomingLeg || leg.state == WaitingLeg
  }

  datatype Found = Absent | Ambiguous | At(leg: LegSnapshot)

  // The first leg satisfying p.
  function FirstLeg(legs: seq<LegSnapshot>, p: LegSnapshot -> bool): Found {
    if legs == [] then Absent
    else if p(legs[0]) then At(legs[0])
    else FirstLeg(legs[1..], p)
  }

  // The one leg satisfying p.
  function OnlyLeg(legs: seq<LegSnapshot>, p: LegSnapshot -> bool): Found {
    if legs == [] then Absent
    else if !p(legs[0]) then OnlyLeg(legs[1..], p)
    else if OnlyLeg(legs[1..], p) == Absent then At(legs[0])
    else Ambiguous
  }

  function SameRef(w: Waiting): LegSnapshot -> bool {
    (leg: LegSnapshot) => leg.id == w.id && leg.generation == w.generation
  }

  function SameEpisode(w: Waiting): LegSnapshot -> bool {
    (leg: LegSnapshot) => leg.episode == w.episode
  }

  function WaitingLegByRef(w: Waiting, snap: Snapshot): Found {
    var byRef := if w.id != 0 && w.generation != 0 then FirstLeg(snap.legs, SameRef(w)) else Absent;
    if byRef.At? then byRef
    else if w.episode == 0 then Absent
    else OnlyLeg(snap.legs, SameEpisode(w))
  }

  function Candidate(w: Waiting): LegSnapshot -> bool {
    (leg: LegSnapshot) =>
      && !leg.pendingRemoval && Presenting(leg)
      && !(w.episode != 0 && leg.episode != 0 && leg.episode != w.episode)
  }

  function BindWaiting(w: Waiting, leg: LegSnapshot): Waiting {
    if leg.pendingRemoval || !Presenting(leg) then w
    else w.(id := leg.id, generation := leg.generation,
            episode := if leg.episode != 0 then leg.episode else w.episode)
  }

  // Only the identity fields change.
  function CaptureWaiting(w: Waiting, snap: Snapshot): (r: Waiting)
    ensures r == w.(id := r.id, generation := r.generation, episode := r.episode)
  {
    if snap.overflow then w
    else
      var w1 := if w.episode == 0 && snap.pendingIncoming && snap.alertObserved
                then w.(episode := snap.pendingEpisode) else w;
      match WaitingLegByRef(w1, snap)
      case Ambiguous => w1
      case At(leg) => BindWaiting(w1, leg)
      case Absent =>
        match OnlyLeg(snap.legs, Candidate(w1))
        case At(leg) => BindWaiting(w1, leg)
        case _ => w1
  }

  datatype Survival = Unresolved | Gone | StillRinging | NowConnected

  function WaitingSurvival(w: Waiting, snap: Snapshot): Survival {
    if snap.overflow then Unresolved
    else match WaitingLegByRef(w, snap)
      case Ambiguous => Unresolved
      case At(leg) =>
        if leg.pendingRemoval || leg.state == ReleasingLeg then Unresolved
        else if Presenting(leg) then StillRinging
        else if leg.state == ActiveLeg || leg.state == HeldLeg then NowConnected
        else Unresolved
      case Absent =>
        if w.episode != 0 && snap.pendingIncoming && snap.alertObserved &&
           snap.pendingEpisode == w.episode
        then StillRinging else Gone
  }

  function OpenWaiting(s: Session, inp: PollInput): Session {
    var st := inp.status;
    s.(waiting := Waiting(true, 0, 0, 0, st.incomingNumber, inp.contactName,
                          st.withheld, st.diverted, false, s.nextCaller),
       nextCaller := s.nextCaller + 1,
       route := Call)
  }

  function HandoffToIncoming(s: Session, inp: PollInput): Session {
    var w := s.waiting;
    OpenIncoming(FinalizePrimary(s, inp.now, NoReason), w.number, w.name, inp.now,
                 w.withheld || inp.status.withheld, w.diverted || inp.status.diverted, w.caller)
  }

  function HandoffToConnected(s: Session, inp: PollInput): Session {
    var w := s.waiting;
    var f := FinalizePrimary(s, inp.now, NoReason);
    ResetSession(f).(
      route := Call, phase := Live, resultArmed := true,
      slots := BLANK_SLOTS.(
        primary := Leg(w.number, w.name, Received, if w.number == "" then 0 else inp.newRecordId),
        connectedMs := ArmStamp(inp.now)),
      incoming := Incoming(true, false, true, w.withheld || inp.status.withheld,
                           w.diverted || inp.status.diverted, w.caller),
      setup := NO_SETUP.(startedMs := inp.now),
      store := WithReceived(f.store, w.number, w.name, w.caller))
  }

  // --- One poll, stage by stage ---

  predicate CallSurface(r: Route) {
    r == Call || r == CallOptions || r == InCallEditor
  }

  // The slots as the "On hold" indicator leaves them.
  function HoldShown(s: Session, st: Status): Slots {
    if s.phase == Live && !s.slots.secondary then s.slots.(onHold := st.onHold) else s.slots
  }

  function ShowHold(s: Session, st: Status): Session {
    s.(slots := HoldShown(s, st))
  }

  function ReconcileTwoCall(s: Session, st: Status, now: u32): (r: Session)
    ensures TotalsMatch(s.store) ==> TotalsMatch(r.store)
    ensures r == s.(slots := r.slots, survivor := r.survivor, store := r.store)
  {
    if !(s.slots.secondary && s.seen.secondHeld && s.phase == Live) then s
    else if !st.secondHeld then
      if st.activeId == s.seen.activeId then DropHeld(s)
      else
        var p := PromoteHeld(s, now, NoReason);
        if st.onHold && st.activeId != 0 then ArmSurvivor(p, st.activeId, now) else p
    else if st.activeId != s.seen.activeId then SwapSlots(s, now)
    else s
  }

  function NoteNetwork(s: Session, st: Status): Session {
    s.(seen := s.seen.(secondHeld := st.secondHeld, activeId := st.activeId))
  }

  // The held party's time while the second one was being dialled.
  function SetupAged(c: Slots, startedMs: u32, now: u32): Slots {
    var ms := TimeDiff(now, startedMs);
    if ms > 0 then c.(heldSeconds := Add32(c.heldSeconds, ms / 1000)) else c
  }

  function OriginalReleased(s: Session, st: Status, now: u32, surface: bool): (r: Session)
    ensures TotalsMatch(s.store) ==> TotalsMatch(r.store)
    ensures r == s.(slots := r.slots, setup := r.setup, store := r.store)
  {
    if surface && s.phase == Setup && s.slots.secondary && s.setup.newActiveRef != 0 &&
       st.callState == Dialing && st.activeId == 0
    then
      DropHeld(s.(slots := SetupAged(s.slots, s.setup.startedMs, now))).(
        setup := s.setup.(newActiveRef := 0))
    else s
  }

  function Disarm(v: Survivor): Survivor {
    v.(pending := false, id := 0)
  }

  // The exact survivor is held, alone, and nothing else is about to move it.
  predicate MayRetrieve(s: Session, inp: PollInput) {
    && s.survivor.pending && s.survivor.id != 0
    && s.phase == Live && !s.slots.secondary
    && inp.status.callState == Active && inp.status.activeId == s.survivor.id
    && inp.status.onHold && !inp.status.waitingCall
    && !inp.releaseActivePending && !inp.cleanupPending
    && TimeDiff(inp.now, s.survivor.dueMs) >= 0
  }

  function NextSurvivor(s: Session, inp: PollInput): Survivor {
    var st := inp.status;
    var v := s.survivor;
    var isActive := st.callState == Active && st.activeId == v.id;
    var due := TimeDiff(inp.now, v.dueMs) >= 0;
    var later := v.(dueMs := Add32(inp.now, SURVIVOR_RETRY_MS));
    if !v.pending then v
    else if !(s.phase == Live && !s.slots.secondary && v.id != 0) ||
            st.callState == Idle || st.callState == Ringing
    then Disarm(v)
    else if isActive && !st.onHold then (if due then Disarm(v) else v)
    else if isActive && (st.waitingCall || inp.releaseActivePending || inp.cleanupPending) then later
    else if isActive && due then (if inp.holdAdmitted then Disarm(v) else later)
    else if st.callState == Active && st.activeId != v.id && !st.secondHeld && due then Disarm(v)
    else v
  }

  function RetrieveSurvivor(s: Session, inp: PollInput): Session {
    s.(survivor := NextSurvivor(s, inp),
       requests := if MayRetrieve(s, inp) && inp.holdAdmitted
                   then s.requests + [AutoHold(s.survivor.id)] else s.requests)
  }

  function ArmResult(s: Session, st: Status, surface: bool): Session {
    s.(resultArmed := s.resultArmed ||
         (surface && s.phase == Setup &&
          (st.callState == Dialing || st.callState == Answering || st.callState == Active)))
  }

  function ExpireAsked(a: Asked, st: Status, now: u32): Asked {
    var r := if a.release && st.waitingCall && st.activeId == a.releaseId && TimeDiff(now, a.retryMs) >= 0
             then a.(release := false, releaseId := 0) else a;
    if st.waitingCall then r else r.(action := false)
  }

  // A stage either lets the poll go on or ends it.
  datatype Outcome = More(s: Session) | Done(s: Session)

  function LeaveOptions(s: Session): Session {
    s.(route := if s.route == CallOptions then Call else s.route)
  }

  function PresentWaiting(s: Session, inp: PollInput): Outcome {
    var st := inp.status;
    var c := s.(waiting := CaptureWaiting(s.waiting, inp.snapshot));
    if !c.waiting.pending || c.waiting.number != st.incomingNumber ||
       c.waiting.name != inp.contactName
    then
      var o := OpenWaiting(c, inp);
      Done(o.(waiting := CaptureWaiting(o.waiting, inp.snapshot)))
    else if c.waiting.withheld != st.withheld || c.waiting.diverted != st.diverted then
      Done(c.(waiting := c.waiting.(withheld := st.withheld, diverted := st.diverted)))
    else More(c)
  }

  function WaitingGone(s: Session, inp: PollInput): Session {
    var m := NoteWaitingMissed(s).(waiting := NO_WAITING);
    if inp.status.callState == Ringing
    then OpenNewIncoming(FinalizePrimary(m, inp.now, NoReason), inp)
    else LeaveOptions(m)
  }

  function ResolveWaiting(s: Session, inp: PollInput): Session {
    if inp.status.secondHeld && !s.slots.secondary then
      LeaveOptions(EstablishTwoCall(s, inp.now, inp.newRecordId))
    else
      var r := s.(asked := s.asked.(release := false, releaseId := 0));
      match WaitingSurvival(s.waiting, inp.snapshot)
      case Unresolved => s
      case StillRinging => HandoffToIncoming(r, inp)
      case NowConnected => HandoffToConnected(r, inp)
      case Gone => WaitingGone(r, inp)
  }

  function WaitingStage(s: Session, inp: PollInput): Outcome {
    if inp.status.waitingCall && s.phase == Live && !s.asked.action
    then PresentWaiting(s, inp)
    else if !inp.status.waitingCall && s.waiting.pending then Done(ResolveWaiting(s, inp))
    else More(s)
  }

  // A failed call shows its result and the session ends.
  function EndWithResult(s: Session, now: u32, reason: Reason): Session {
    ResetSession(FinalizePrimary(s, now, reason)).(route := Elsewhere)
  }

  function FailureReason(result: CallResult, registered: bool): Reason {
    if result == NoCarrier || result == NoDialtone then HadNoNetwork
    else if result == NoResult then NoReason
    else ReasonFor(result, registered)
  }

  function FailureStage(s: Session, inp: PollInput, surface: bool): Outcome {
    if surface && s.phase == Setup && s.setup.failureMs != 0 &&
       TimeDiff(inp.now, s.setup.failureMs) >= 0
    then
      var result := s.setup.failureResult;
      var r := s.(setup := s.setup.(failureMs := 0));
      if s.slots.secondary then
        Done(RollbackNewCall(r, if result == NoResult then NoAnswer else result, inp))
      else Done(EndWithResult(r, inp.now, FailureReason(result, inp.status.registered)))
    else More(s)
  }

  function RingingStage(s: Session, inp: PollInput): Outcome {
    var st := inp.status;
    var leg := s.slots.primary;
    if st.callState != Ringing then More(s)
    else if s.localHangup then Done(s)
    else if s.route == IncomingCall then
      var shown := if st.incomingNumber != "" && leg.number != st.incomingNumber
        then leg.(number := st.incomingNumber, name := inp.contactName) else leg;
      Done(s.(slots := s.slots.(primary := shown),
              incoming := s.incoming.(withheld := st.withheld, diverted := st.diverted)))
    else if s.route != Call then Done(OpenNewIncoming(s, inp))
    else More(s)
  }

  // A second party was dialled and has not taken over.
  function AwaitSecond(s: Session, inp: PollInput): Session {
    var st := inp.status;
    if st.secondResult != NoResult && st.secondResult != Connected then
      RollbackNewCall(s, st.secondResult, inp)
    else if s.setup.activeSeenMs != 0 then RollbackNewCall(s, NoResult, inp)
    else if TimeDiff(inp.now, Add32(s.setup.startedMs, NEW_CALL_TIMEOUT_MS)) >= 0 then
      RollbackNewCall(s, NoAnswer, inp)
    else s
  }

  function ActiveStage(s: Session, inp: PollInput): Outcome {
    var st := inp.status;
    var seenMs := s.setup.activeSeenMs;
    if st.callState != Active then More(s)
    else if s.route == Call && s.phase == Setup then
      if s.slots.secondary && (st.activeId == 0 || st.activeId == s.setup.newActiveRef) then
        Done(AwaitSecond(s, inp))
      else if seenMs == 0 then Done(s.(setup := s.setup.(activeSeenMs := inp.now)))
      else if TimeDiff(inp.now, Add32(seenMs, ACTIVE_CONFIRM_MS)) >= 0 then
        Done(RecordAnswered(Connect(s, inp.now), inp.newRecordId))
      else Done(s)
    else if s.route == IncomingCall && s.incoming.answerPending then
      Done(RecordAnswered(Connect(s, inp.now), inp.newRecordId))
    else More(s)
  }

  function IncomingIdle(s: Session, newId: RecordId): Session {
    if !s.incoming.recorded && !s.incoming.answerPending
    then ResetSession(MissedNotice(LogMissedIncoming(s, newId)))
    else ResetSession(s).(route := Standby)
  }

  function IdleStage(s: Session, inp: PollInput, surface: bool, previous: CallState): Outcome {
    if inp.status.callState != Idle then More(s)
    else
      var r := s.(localHangup := false);
      if r.route == IncomingCall then Done(IncomingIdle(r, inp.newRecordId))
      else if surface && r.resultArmed &&
              (previous == Active || previous == Answering || previous == Dialing) then
        if r.phase == Live
        then Done(ResetSession(FinalizeHeld(FinalizePrimary(r, inp.now, NoReason))).(route := Standby))
        else Done(EndWithResult(r, inp.now,
                                ReasonFor(inp.status.lastResult, inp.status.registered)))
      else More(r)
  }

  function ResultStage(s: Session, inp: PollInput, surface: bool): Session {
    var st := inp.status;
    if st.lastResult != NoResult && st.lastResult != Connected && s.resultArmed &&
       surface && s.phase == Setup
    then EndWithResult(s, inp.now, ReasonFor(st.lastResult, st.registered))
    else s
  }

  // The stages that never end the poll.
  function Reconcile(s: Session, inp: PollInput, surface: bool): Session {
    var st := inp.status;
    var noted := s.(seen := s.seen.(state := st.callState, result := st.lastResult));
    var two := NoteNetwork(ReconcileTwoCall(ShowHold(noted, st), st, inp.now), st);
    var sole := RetrieveSurvivor(OriginalReleased(two, st, inp.now, surface), inp);
    ArmResult(sole, st, surface).(asked := ExpireAsked(sole.asked, st, inp.now))
  }

  // The stages that may.
  function Conclude(s: Session, inp: PollInput, surface: bool, previous: CallState): Session {
    var waited := WaitingStage(s, inp);
    if waited.Done? then waited.s else
    var failed := FailureStage(waited.s, inp, surface);
    if failed.Done? then failed.s else
    var rung := RingingStage(failed.s, inp);
    if rung.Done? then rung.s else
    var active := ActiveStage(rung.s, inp);
    if active.Done? then active.s else
    var idle := IdleStage(active.s, inp, surface, previous);
    if idle.Done? then idle.s else
    ResultStage(idle.s, inp, surface)
  }

  function Poll(s: Session, inp: PollInput): Session {
    var surface := CallSurface(s.route);
    Conclude(Reconcile(s, inp, surface), inp, surface, s.seen.state)
  }

  // --- User actions ---

  function Ask(s: Session, r: Request): Session {
    s.(requests := s.requests + [r])
  }

  function AnswerIncoming(s: Session, now: u32, admitted: bool): Session {
    if s.incoming.answerPending || !admitted then s
    else Ask(s, Answer).(incoming := s.incoming.(answerPending := true), resultArmed := true,
                         setup := s.setup.(startedMs := now))
  }

  function RejectIncoming(s: Session, newId: RecordId): Session {
    var logged := if s.incoming.recorded then s else LogMissedIncoming(s, newId);
    ResetSession(MissedNotice(Ask(logged, Hangup))).(localHangup := true)
  }

  function AnswerWaiting(s: Session, admitted: bool): Session {
    if !s.waiting.pending || !admitted then s
    else Ask(s, WaitingAnswer).(asked := s.asked.(action := true), route := Call)
  }

  function RejectWaiting(s: Session): Session {
    if !s.waiting.pending then s
    else Ask(s, WaitingReject).(asked := s.asked.(action := true), route := Call)
  }

  function SwapCalls(s: Session): Session {
    if !s.slots.secondary then s else Ask(s, SwapRequest).(route := Call)
  }

  function ToggleHold(s: Session): Session {
    Ask(s, ManualHold).(survivor := Disarm(s.survivor), route := Call)
  }

  function ReleaseActiveWithWaiting(s: Session, st: Status, now: u32, admitted: bool): Session {
    if s.asked.release || !st.waitingCall || st.activeId == 0 || !admitted then s
    else Ask(s, ReleaseLeg(st.activeId)).(
           asked := Asked(s.asked.action, true, st.activeId, Add32(now, WAITING_RELEASE_RETRY_MS)),
           route := Call)
  }

  // "End this call".
  function EndThisCall(s: Session, st: Status, now: u32, newId: RecordId, admitted: bool): Session {
    if s.waiting.pending && !s.slots.secondary then ReleaseActiveWithWaiting(s, st, now, admitted)
    else if s.slots.secondary then Ask(s, ReleaseActive).(route := Call)
    else EndCall(s, now, newId, true)
  }

  // "End all calls".
  function EndAllCalls(s: Session, now: u32, newId: RecordId): Session {
    var r := EndCall(s, now, newId, true);
    if s.waiting.pending then Ask(r, WaitingReject) else r
  }

  predicate SettingUpSecond(s: Session) {
    s.phase == Setup && s.slots.secondary
  }

  function CancelNewCall(s: Session, st: Status, now: u32, admitted: bool): Session {
    var id := s.setup.newActiveRef;
    var taken := id != 0 && st.callState == Active && st.activeId != 0 && st.activeId != id;
    if taken && !admitted then s
    else
      var released := if taken then s.requests + [ReleaseLeg(st.activeId)] else s.requests;
      var r := PromoteHeld(s, now, NoReason).(
        requests := released + [Abandon], phase := Live, resultArmed := true, route := Call,
        setup := s.setup.(newActiveRef := 0, failureMs := 0, failureResult := NoResult));
      if id != 0 then ArmSurvivor(r, id, now) else r
  }

  // --- Dialling a second party ---

  datatype Preserve = Preserve(held: Leg, heldSeconds: u32, waiting: Waiting)

  function SnapshotLive(s: Session, now: u32): Preserve {
    Preserve(s.slots.primary, Elapsed(s.slots.connectedMs, now), s.waiting)
  }

  function RestoreHeld(s: Session, p: Preserve): Session {
    s.(slots := s.slots.(held := p.held, heldSeconds := p.heldSeconds, secondary := true, onHold := true),
       waiting := if p.waiting.pending then p.waiting else s.waiting)
  }

  datatype DialInput = DialInput(now: u32, status: Status, simReady: bool, admitted: bool,
                                 number: string, name: string, contactName: string,
                                 newRecordId: RecordId)

  predicate DialRefused(d: DialInput) {
    d.number == "" || (d.simReady && d.status.registered && !d.admitted)
  }

  function DialSetup(d: DialInput): CallSetup {
    var base := CallSetup(d.status.activeId, d.now, 0, 0, NoResult);
    if !d.simReady then base.(failureMs := ArmStamp(Add32(d.now, CONNECT_DELAY_MS)))
    else if !d.status.registered then
      base.(failureMs := ArmStamp(Add32(d.now, NO_NETWORK_DELAY_MS)), failureResult := NoCarrier)
    else base
  }

  function StartOutgoing(s: Session, d: DialInput): Session {
    if DialRefused(d) then s.(route := Elsewhere)
    else
      var leg := Leg(d.number, if d.name == "" then d.contactName else d.name, Dialled,
                     if d.simReady then d.newRecordId else 0);
      ResetSession(s).(
        route := Call, slots := BLANK_SLOTS.(primary := leg), setup := DialSetup(d),
        requests := if d.simReady && d.status.registered then s.requests + [Dial(d.number)]
                    else s.requests)
  }

  function DialSecond(s: Session, d: DialInput): Session {
    var r := StartOutgoing(s, d);
    if r.route == Call then RestoreHeld(r, SnapshotLive(s, d.now)) else r
  }
}
