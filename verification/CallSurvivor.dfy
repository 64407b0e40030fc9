// The survivor intent: each arming leads to at most one automatic hold toggle,
// sent only for the exact held survivor and never before its settle time.

module CallSurvivor {
  import opened Wrappers
  import opened Timebase
  import opened CallTypes
  import opened CallSession
  import opened CallEvents
  import CallOutcomes

  function AutoHolds(requests: seq<Request>): nat {
    if requests == [] then 0
    else AutoHolds(requests[..|requests| - 1]) +
         if requests[|requests| - 1].AutoHold? then 1 else 0
  }

  lemma AutoHoldsAppend(requests: seq<Request>, r: Request)
    ensures AutoHolds(requests + [r]) == AutoHolds(requests) + if r.AutoHold? then 1 else 0
  {
    assert (requests + [r])[..|requests|] == requests;
  }

  // A fresh intent.
  predicate Armed(before: Survivor, after: Survivor) {
    after.pending && after != before
  }

  // The intent was ready for its leg but something stood in the way of this poll.
  predicate Blocked(s: Session, inp: PollInput) {
    var st := inp.status;
    && s.survivor.pending && s.survivor.id != 0 && s.phase == Live && !s.slots.secondary
    && st.callState == Active && st.activeId == s.survivor.id && st.onHold
    && (st.waitingCall || inp.releaseActivePending || inp.cleanupPending ||
        (TimeDiff(inp.now, s.survivor.dueMs) >= 0 && !inp.holdAdmitted))
  }

  // --- One poll ---

  // The session as the retrieve stage finds it.
  function AtRetrieve(s: Session, inp: PollInput): Session {
    var st := inp.status;
    var noted := s.(seen := s.seen.(state := st.callState, result := st.lastResult));
    var two := NoteNetwork(ReconcileTwoCall(ShowHold(noted, st), st, inp.now), st);
    OriginalReleased(two, st, inp.now, CallSurface(s.route))
  }

  function Retrieved(s: Session, inp: PollInput): Session {
    Reconcile(s, inp, CallSurface(s.route))
  }

  lemma BeforeRetrieve(s: Session, inp: PollInput)
    ensures var a := AtRetrieve(s, inp).survivor;
      a == s.survivor || a == NO_SURVIVOR ||
      a == Survivor(true, inp.status.activeId, Add32(inp.now, SURVIVOR_SETTLE_MS))
    ensures AtRetrieve(s, inp).requests == s.requests
  {}

  lemma RetrieveStage(s: Session, inp: PollInput)
    ensures var a, r := AtRetrieve(s, inp), Retrieved(s, inp);
      && r.survivor == NextSurvivor(a, inp)
      && r.requests == (if MayRetrieve(a, inp) && inp.holdAdmitted
                        then a.requests + [AutoHold(a.survivor.id)] else a.requests)
      && r.phase == a.phase && r.slots == a.slots
  {}

  // Left alone, dropped, or armed afresh, with no toggle sent.
  predicate IntentMove(s: Session, r: Session, inp: PollInput) {
    && (r.survivor == s.survivor || r.survivor == NO_SURVIVOR ||
        r.survivor == Survivor(true, inp.status.activeId, Add32(inp.now, SURVIVOR_SETTLE_MS)))
    && (r.requests == s.requests || r.requests == s.requests + [Abandon])
  }

  lemma HandoffIntent(s: Session, inp: PollInput)
    ensures var i, c := HandoffToIncoming(s, inp), HandoffToConnected(s, inp);
      && i.survivor == NO_SURVIVOR && i.requests == s.requests
      && c.survivor == NO_SURVIVOR && c.requests == s.requests
  {}

  lemma GoneIntent(s: Session, inp: PollInput)
    ensures var g := WaitingGone(s, inp);
      (g.survivor == s.survivor || g.survivor == NO_SURVIVOR) && g.requests == s.requests
  {}

  lemma WaitingIntent(s: Session, inp: PollInput)
    ensures var o := WaitingStage(s, inp);
      IntentMove(s, o.s, inp) && o.s.requests == s.requests && (o.More? ==> o.s.survivor == s.survivor)
  {
    var r := s.(asked := s.asked.(release := false, releaseId := 0));
    HandoffIntent(r, inp);
    GoneIntent(r, inp);
  }

  lemma RollbackIntent(s: Session, result: CallResult, inp: PollInput)
    ensures IntentMove(s, RollbackNewCall(s, result, inp), inp)
  {}

  lemma FailureIntent(s: Session, inp: PollInput, surface: bool)
    ensures IntentMove(s, FailureStage(s, inp, surface).s, inp)
  {
    var result, r := s.setup.failureResult, s.(setup := s.setup.(failureMs := 0));
    RollbackIntent(r, if result == NoResult then NoAnswer else result, inp);
  }

  lemma AwaitSecondIntent(s: Session, inp: PollInput)
    ensures IntentMove(s, AwaitSecond(s, inp), inp)
  {
    RollbackIntent(s, inp.status.secondResult, inp);
    RollbackIntent(s, NoResult, inp);
    RollbackIntent(s, NoAnswer, inp);
  }

  lemma ActiveIntent(s: Session, inp: PollInput)
    ensures IntentMove(s, ActiveStage(s, inp).s, inp)
  {
    AwaitSecondIntent(s, inp);
    ConnectIntent(s, inp);
  }

  lemma ConnectIntent(s: Session, inp: PollInput)
    ensures var r := RecordAnswered(Connect(s, inp.now), inp.newRecordId);
      r.survivor == s.survivor && r.requests == s.requests
  {}

  lemma RingingIntent(s: Session, inp: PollInput)
    ensures IntentMove(s, RingingStage(s, inp).s, inp)
  {}

  lemma IdleIntent(s: Session, inp: PollInput, surface: bool, previous: CallState)
    ensures IntentMove(s, IdleStage(s, inp, surface, previous).s, inp)
  {}

  lemma ResultIntent(s: Session, inp: PollInput, surface: bool)
    ensures IntentMove(s, ResultStage(s, inp, surface), inp)
  {}

  lemma StagesPassOn(s: Session, inp: PollInput, surface: bool, previous: CallState)
    ensures FailureStage(s, inp, surface).More? ==> FailureStage(s, inp, surface).s == s
    ensures RingingStage(s, inp).More? ==> RingingStage(s, inp).s == s
    ensures ActiveStage(s, inp).More? ==> ActiveStage(s, inp).s == s
    ensures var o := IdleStage(s, inp, surface, previous);
      o.More? ==> o.s.survivor == s.survivor && o.s.requests == s.requests
  {}

  lemma AfterRetrieve(s: Session, inp: PollInput, surface: bool, previous: CallState)
    ensures IntentMove(s, Conclude(s, inp, surface, previous), inp)
  {
    WaitingIntent(s, inp);
    var w := WaitingStage(s, inp).s;
    FailureIntent(w, inp, surface);
    RingingIntent(w, inp);
    ActiveIntent(w, inp);
    IdleIntent(w, inp, surface, previous);
    ResultIntent(IdleStage(w, inp, surface, previous).s, inp, surface);
    StagesPassOn(w, inp, surface, previous);
  }

  // --- The true history of the current intent ---

  datatype Watch = Watch(armedAt: int, blockedAt: Option<int>)

  // 250 ms after the last blocked poll, or 500 ms after arming.
  function DueAt(w: Watch): int {
    match w.blockedAt
    case None => w.armedAt + SURVIVOR_SETTLE_MS
    case Some(b) => b + SURVIVOR_RETRY_MS
  }

  function Rearmed(w: Watch, before: Survivor, after: Survivor, t: int): Watch {
    if Armed(before, after) then Watch(t, None) else w
  }

  function WatchPoll(w: Watch, s: Session, inp: PollInput, t: int): Watch {
    var a := AtRetrieve(s, inp);
    var w1 := Rearmed(w, s.survivor, a.survivor, t);
    var w2 := if Blocked(a, inp) then w1.(blockedAt := Some(t)) else w1;
    Rearmed(w2, Retrieved(s, inp).survivor, Poll(s, inp).survivor, t)
  }

  function WatchStep(w: Watch, s: Session, e: Event, t: int): Watch {
    if e.PollEvent? then WatchPoll(w, s, e.inp, t)
    else Rearmed(w, s.survivor, Step(s, e).survivor, t)
  }

  // How many intents a step arms.
  function Arms(s: Session, e: Event): nat {
    if e.PollEvent? then
      (if Armed(s.survivor, AtRetrieve(s, e.inp).survivor) then 1 else 0) +
      (if Armed(Retrieved(s, e.inp).survivor, Poll(s, e.inp).survivor) then 1 else 0)
    else if Armed(s.survivor, Step(s, e).survivor) then 1 else 0
  }

  // The stored deadline is the true one.
  predicate Tracks(v: Survivor, w: Watch, t: int) {
    v.pending ==> v.dueMs == Wrap(DueAt(w)) && w.armedAt <= t && DueAt(w) <= t + SURVIVOR_SETTLE_MS
  }

  function Owed(v: Survivor): nat {
    if v.pending then 1 else 0
  }

  lemma AddWrap(t: int, d: u32)
    ensures Add32(Wrap(t), d) == Wrap(t + d)
  {}

  lemma RearmedTracks(before: Survivor, after: Survivor, id: u8, w: Watch, t: int)
    requires Tracks(before, w, t)
    requires after == before || after == NO_SURVIVOR ||
             after == Survivor(true, id, Add32(Wrap(t), SURVIVOR_SETTLE_MS))
    ensures Tracks(after, Rearmed(w, before, after, t), t)
    ensures Owed(after) <= Owed(before) + if Armed(before, after) then 1 else 0
  {
    AddWrap(t, SURVIVOR_SETTLE_MS);
  }

  // The retrieve stage itself: a toggle uses up the intent, not before its time.
  lemma RetrieveTracks(a: Session, inp: PollInput, w: Watch, t: int)
    requires Tracks(a.survivor, w, t) && inp.now == Wrap(t)
    ensures Tracks(NextSurvivor(a, inp), if Blocked(a, inp) then w.(blockedAt := Some(t)) else w, t)
    ensures MayRetrieve(a, inp) && inp.holdAdmitted ==> !NextSurvivor(a, inp).pending && t >= DueAt(w)
    ensures Owed(NextSurvivor(a, inp)) <= Owed(a.survivor)
  {
    AddWrap(t, SURVIVOR_RETRY_MS);
    if a.survivor.pending && t < DueAt(w) {
      TimeDiffExact(t, DueAt(w));
    }
  }

  // What a poll that toggles the hold had in front of it.
  predicate ToggledRightly(s: Session, inp: PollInput, w: Watch, t: int) {
    var a := AtRetrieve(s, inp);
    var st := inp.status;
    && s.survivor.pending && a.survivor == s.survivor
    && st.callState == Active && st.activeId == s.survivor.id && st.onHold && st.activeId != 0
    && !st.waitingCall && !inp.releaseActivePending && !inp.cleanupPending
    && t >= DueAt(w)
  }

  lemma PollTracks(s: Session, inp: PollInput, w: Watch, t: int)
    requires Tracks(s.survivor, w, t) && inp.now == Wrap(t)
    ensures Tracks(Poll(s, inp).survivor, WatchPoll(w, s, inp, t), t)
    ensures AutoHolds(Poll(s, inp).requests) + Owed(Poll(s, inp).survivor)
         <= AutoHolds(s.requests) + Owed(s.survivor) + Arms(s, PollEvent(inp))
    ensures AutoHolds(Poll(s, inp).requests) > AutoHolds(s.requests) ==> ToggledRightly(s, inp, w, t)
  {
    var surface := CallSurface(s.route);
    var a, r, p := AtRetrieve(s, inp), Retrieved(s, inp), Poll(s, inp);
    BeforeRetrieve(s, inp);
    RearmedTracks(s.survivor, a.survivor, inp.status.activeId, w, t);
    var w1 := Rearmed(w, s.survivor, a.survivor, t);
    RetrieveStage(s, inp);
    RetrieveTracks(a, inp, w1, t);
    AutoHoldsAppend(a.requests, AutoHold(a.survivor.id));
    AfterRetrieve(r, inp, surface, s.seen.state);
    var w2 := if Blocked(a, inp) then w1.(blockedAt := Some(t)) else w1;
    RearmedTracks(r.survivor, p.survivor, inp.status.activeId, w2, t);
    AutoHoldsAppend(r.requests, Abandon);
    if MayRetrieve(a, inp) && inp.holdAdmitted && a.survivor != s.survivor {
      assert false;
    }
  }

  // --- And it does toggle ---

  // One call is shown, or becomes the only one in this poll.
  predicate Alone(s: Session, st: Status) {
    !s.slots.secondary || (s.seen.secondHeld && !st.secondHeld && st.activeId == s.seen.activeId)
  }

  // The exact survivor is found held, and nothing stands in the way.
  predicate FoundHeld(s: Session, inp: PollInput) {
    var st := inp.status;
    && s.survivor.pending && s.survivor.id != 0 && s.phase == Live && Alone(s, st)
    && st.callState == Active && st.activeId == s.survivor.id && st.onHold
    && !st.waitingCall && !inp.releaseActivePending && !inp.cleanupPending
  }

  lemma RetrievesWhenFound(s: Session, inp: PollInput)
    ensures MayRetrieve(AtRetrieve(s, inp), inp) <==> FoundHeld(s, inp) && TimeDiff(inp.now, s.survivor.dueMs) >= 0
    ensures MayRetrieve(AtRetrieve(s, inp), inp) ==> AtRetrieve(s, inp).survivor == s.survivor
  {
    BeforeRetrieve(s, inp);
    var soon := Add32(inp.now, SURVIVOR_SETTLE_MS);
    assert TimeDiff(inp.now, soon) < 0;
  }

  // A poll sends the toggle exactly when it finds the exact survivor held with nothing
  // in the way, its time has come and the service admits it.
  lemma TogglesExactly(s: Session, inp: PollInput, w: Watch, t: int)
    requires Tracks(s.survivor, w, t) && inp.now == Wrap(t) && t < DueAt(w) + HALF
    ensures var toggles := FoundHeld(s, inp) && t >= DueAt(w) && inp.holdAdmitted;
      var q, r := s.requests, Poll(s, inp).requests;
      && AutoHolds(r) == AutoHolds(q) + (if toggles then 1 else 0)
      && (toggles ==> q + [AutoHold(s.survivor.id)] <= r)
  {
    RetrievesWhenFound(s, inp);
    BeforeRetrieve(s, inp);
    RetrieveStage(s, inp);
    if s.survivor.pending {
      TimeDiffExact(t, DueAt(w));
    }
    var r := Retrieved(s, inp);
    AfterRetrieve(r, inp, CallSurface(s.route), s.seen.state);
    AutoHoldsAppend(s.requests, AutoHold(s.survivor.id));
    AutoHoldsAppend(r.requests, Abandon);
  }

  // What a poll leaves of the intent for a sole live call.
  predicate StillMeant(s: Session, inp: PollInput, early: bool) {
    var st := inp.status;
    if st.activeId != s.survivor.id then early || st.secondHeld
    else if !st.onHold then early
    else early || st.waitingCall || inp.releaseActivePending || inp.cleanupPending || !inp.holdAdmitted
  }

  // The intent is kept exactly until its time has come, and longer only while its leg is
  // held and something stands in the way, or while another party is held too.
  lemma IntentFate(s: Session, inp: PollInput, w: Watch, t: int)
    requires Tracks(s.survivor, w, t) && inp.now == Wrap(t) && t < DueAt(w) + HALF
    requires s.survivor.pending && s.survivor.id != 0
    requires s.phase == Live && !s.slots.secondary && s.route != IncomingCall
    requires inp.status.callState == Active && (inp.status.waitingCall || !s.waiting.pending)
    ensures var v := Poll(s, inp).survivor;
      && (v.pending <==> StillMeant(s, inp, t < DueAt(w)))
      && (v.pending ==> v.id == s.survivor.id)
  {
    TimeDiffExact(t, DueAt(w));
    RetrieveStage(s, inp);
    assert AtRetrieve(s, inp).survivor == s.survivor;
    var r := Retrieved(s, inp);
    CallOutcomes.ConcludeShows(r, inp, CallSurface(s.route), s.seen.state);
  }

  lemma FreshStays(a: Session, inp: PollInput)
    requires a.phase == Live && !a.slots.secondary && inp.status.callState == Active && !inp.status.waitingCall
    requires !inp.releaseActivePending && !inp.cleanupPending
    requires a.survivor == NO_SURVIVOR ||
      (inp.status.onHold && inp.status.activeId != 0 &&
       a.survivor == Survivor(true, inp.status.activeId, Add32(inp.now, SURVIVOR_SETTLE_MS)))
    ensures NextSurvivor(a, inp) == a.survivor
  {
    var soon := Add32(inp.now, SURVIVOR_SETTLE_MS);
    assert TimeDiff(inp.now, soon) < 0;
  }

  lemma RetrievedFrame(s: Session, inp: PollInput)
    ensures Retrieved(s, inp).route == s.route && Retrieved(s, inp).waiting == s.waiting
  {}

  lemma PromotedAt(s: Session, inp: PollInput)
    requires s.phase == Live && s.slots.secondary && s.seen.secondHeld
    requires !inp.status.secondHeld && inp.status.activeId != s.seen.activeId
    ensures var st, a := inp.status, AtRetrieve(s, inp);
      && a.phase == Live && !a.slots.secondary
      && a.survivor == if st.onHold && st.activeId != 0
                       then Survivor(true, st.activeId, Add32(inp.now, SURVIVOR_SETTLE_MS)) else NO_SURVIVOR
  {}

  // The held party left on display when the other one hangs up is to be retrieved, in
  // half a second at the earliest; an active one is not.
  lemma PromotionArms(s: Session, inp: PollInput)
    requires s.phase == Live && s.slots.secondary && s.seen.secondHeld && s.route != IncomingCall
    requires var st := inp.status;
      && st.callState == Active && !st.secondHeld && st.activeId != s.seen.activeId
      && !st.waitingCall && !s.waiting.pending && !inp.releaseActivePending && !inp.cleanupPending
    ensures var st, v := inp.status, Poll(s, inp).survivor;
      if st.onHold && st.activeId != 0 then v == Survivor(true, st.activeId, Wrap(inp.now + 500)) else v == NO_SURVIVOR
  {
    PromotedAt(s, inp);
    FreshStays(AtRetrieve(s, inp), inp);
    RetrieveStage(s, inp);
    RetrievedFrame(s, inp);
    CallOutcomes.ConcludeShows(Retrieved(s, inp), inp, CallSurface(s.route), s.seen.state);
  }

  // --- Whole runs ---

  function ArmsInRun(s: Session, xs: seq<Timed>): nat
    decreases |xs|
  {
    if xs == [] then 0 else Arms(s, xs[0].e) + ArmsInRun(Step(s, xs[0].e), xs[1..])
  }

  // Every poll of the run that toggles the hold was entitled to.
  predicate RunToggledRightly(s: Session, w: Watch, xs: seq<Timed>)
    decreases |xs|
  {
    xs == [] ||
    var x := xs[0];
    var next := Step(s, x.e);
    && (AutoHolds(next.requests) > AutoHolds(s.requests) ==>
          x.e.PollEvent? && ToggledRightly(s, x.e.inp, w, x.t))
    && RunToggledRightly(next, WatchStep(w, s, x.e, x.t), xs[1..])
  }

  lemma KeyTracks(s: Session, e: Event, w: Watch, t: int)
    requires Tracks(s.survivor, w, t) && !e.PollEvent? && OnTime(Timed(e, t))
    ensures Tracks(Step(s, e).survivor, WatchStep(w, s, e, t), t)
    ensures AutoHolds(Step(s, e).requests) == AutoHolds(s.requests)
    ensures Owed(Step(s, e).survivor) <= Owed(s.survivor) + Arms(s, e)
  {
    AddWrap(t, SURVIVOR_SETTLE_MS);
    KeyRequests(s, e);
    KeyIntent(s, e, t);
  }

  lemma KeyIntent(s: Session, e: Event, t: int)
    requires !e.PollEvent? && OnTime(Timed(e, t))
    ensures var v := Step(s, e).survivor;
      v == s.survivor || !v.pending ||
      v == Survivor(true, s.setup.newActiveRef, Add32(Wrap(t), SURVIVOR_SETTLE_MS))
  {
    if e.CancelEvent? {
      CancelIntent(s, e.st, e.now, e.admitted);
    }
  }

  lemma CancelIntent(s: Session, st: Status, now: u32, admitted: bool)
    ensures var v := CancelNewCall(s, st, now, admitted).survivor;
      v == s.survivor || v == NO_SURVIVOR ||
      v == Survivor(true, s.setup.newActiveRef, Add32(now, SURVIVOR_SETTLE_MS))
  {}

  lemma {:induction false} NoToggles(q: seq<Request>, asked: seq<Request>)
    requires forall r | r in asked :: !r.AutoHold?
    ensures AutoHolds(q + asked) == AutoHolds(q)
  {
    if asked == [] {
      assert q + asked == q;
    } else {
      var init, last := asked[..|asked| - 1], asked[|asked| - 1];
      NoToggles(q, init);
      assert q + asked == (q + init) + [last];
      AutoHoldsAppend(q + init, last);
    }
  }

  // No key press sends the automatic toggle.
  lemma KeyRequests(s: Session, e: Event)
    requires !e.PollEvent?
    ensures AutoHolds(Step(s, e).requests) == AutoHolds(s.requests)
  {
    CallOutcomes.KeyAsksExactly(s, e);
    NoToggles(s.requests, CallOutcomes.Wanted(s, e));
  }

  lemma LaterStillTracks(v: Survivor, w: Watch, t: int, u: int)
    requires Tracks(v, w, t) && t <= u
    ensures Tracks(v, w, u)
  {}

  // Over any run: no more automatic toggles than intents armed (counting one that
  // was already armed at the start), and every toggle was entitled to be sent.
  lemma {:induction false} RunTracks(s: Session, xs: seq<Timed>, w: Watch, t: int)
    requires Tracks(s.survivor, w, t) && InOrder(t, xs)
    ensures AutoHolds(RunTimed(s, xs).requests)
         <= AutoHolds(s.requests) + Owed(s.survivor) + ArmsInRun(s, xs)
    ensures RunToggledRightly(s, w, xs)
    decreases |xs|
  {
    if xs != [] {
      var x, rest := xs[0], xs[1..];
      LaterStillTracks(s.survivor, w, t, x.t);
      if x.e.PollEvent? {
        PollTracks(s, x.e.inp, w, x.t);
      } else {
        KeyTracks(s, x.e, w, x.t);
      }
      RunTracks(Step(s, x.e), rest, WatchStep(w, s, x.e, x.t), x.t);
    }
  }

  lemma HoldDisarms(s: Session)
    ensures var held := Step(s, HoldEvent); !held.survivor.pending && AutoHolds(held.requests) == AutoHolds(s.requests)
  {
    AutoHoldsAppend(s.requests, ManualHold);
  }

  lemma DisarmedRun(s: Session, xs: seq<Timed>, t: int)
    requires !s.survivor.pending && InOrder(t, xs)
    ensures AutoHolds(RunTimed(s, xs).requests) <= AutoHolds(s.requests) + ArmsInRun(s, xs)
  {
    RunTracks(s, xs, Watch(t, None), t);
  }

  // After a manual hold the app toggles nothing on its own unless a later step arms it.
  lemma HoldTakesOver(s: Session, xs: seq<Timed>, t: int)
    requires InOrder(t, xs)
    ensures var held := Step(s, HoldEvent);
      AutoHolds(RunTimed(held, xs).requests) <= AutoHolds(s.requests) + ArmsInRun(held, xs)
  {
    HoldDisarms(s);
    DisarmedRun(Step(s, HoldEvent), xs, t);
  }
}
