// The waiting caller by the legs of a snapshot alone: which leg is the caller's, what
// its state makes of the session, and which leg a fresh caller is tied to.

module CallIdentity {
  import opened Timebase
  import opened CallTypes
  import opened CallSession
  import opened CallWaiting

  // --- The caller's leg ---

  predicate NoneCarries(w: Waiting, legs: seq<LegSnapshot>) {
    forall i | 0 <= i < |legs| :: !CarriesRef(w, legs[i]) && !CarriesEpisode(w, legs[i])
  }

  // The leg that carries the reference, or where none does the only one of the episode.
  predicate CallerAt(w: Waiting, legs: seq<LegSnapshot>, i: nat)
    requires i < |legs|
  {
    if CarriesRef(w, legs[i]) then forall j | 0 <= j < i :: !CarriesRef(w, legs[j])
    else
      && CarriesEpisode(w, legs[i])
      && forall j | 0 <= j < |legs| ::
           !CarriesRef(w, legs[j]) && (j != i ==> !CarriesEpisode(w, legs[j]))
  }

  lemma {:induction false} FirstLegAt(legs: seq<LegSnapshot>, p: LegSnapshot -> bool, i: nat)
    requires i < |legs| && p(legs[i]) && forall j | 0 <= j < i :: !p(legs[j])
    ensures FirstLeg(legs, p) == At(legs[i])
  {
    if i > 0 {
      assert !p(legs[0]);
      FirstLegAt(legs[1..], p, i - 1);
    }
  }

  lemma OnlyLegAt(legs: seq<LegSnapshot>, p: LegSnapshot -> bool, i: nat)
    requires i < |legs| && p(legs[i]) && forall j | 0 <= j < |legs| && j != i :: !p(legs[j])
    ensures OnlyLeg(legs, p) == At(legs[i])
  {
    OnlyLegMeaning(legs, p);
    assert legs[i] in legs;
  }

  lemma CallerIsFound(w: Waiting, snap: Snapshot, i: nat)
    requires i < |snap.legs| && CallerAt(w, snap.legs, i)
    ensures WaitingLegByRef(w, snap) == At(snap.legs[i])
  {
    var legs := snap.legs;
    if CarriesRef(w, legs[i]) {
      assert forall j | 0 <= j < |legs| :: SameRef(w)(legs[j]) <==> CarriesRef(w, legs[j]);
      FirstLegAt(legs, SameRef(w), i);
    } else {
      assert forall j | 0 <= j < |legs| :: SameEpisode(w)(legs[j]) <==> CarriesEpisode(w, legs[j]);
      OnlyLegAt(legs, SameEpisode(w), i);
      if w.id != 0 && w.generation != 0 {
        FirstLegMeaning(legs, SameRef(w));
        assert forall j | 0 <= j < |legs| :: !SameRef(w)(legs[j]);
      }
    }
  }

  lemma {:induction false} FirstIndex(legs: seq<LegSnapshot>, p: LegSnapshot -> bool) returns (i: nat)
    requires FirstLeg(legs, p).At?
    ensures i < |legs| && legs[i] == FirstLeg(legs, p).leg && p(legs[i]) && forall j | 0 <= j < i :: !p(legs[j])
  {
    i := 0;
    if !p(legs[0]) {
      var k := FirstIndex(legs[1..], p);
      i := k + 1;
      assert forall j | 0 < j < i :: legs[j] == legs[1..][j - 1];
    }
  }

  lemma FoundIsCaller(w: Waiting, snap: Snapshot) returns (i: nat)
    requires WaitingLegByRef(w, snap).At?
    ensures i < |snap.legs| && CallerAt(w, snap.legs, i) && WaitingLegByRef(w, snap) == At(snap.legs[i])
  {
    var legs := snap.legs;
    FirstLegMeaning(legs, SameRef(w));
    if w.id != 0 && w.generation != 0 && FirstLeg(legs, SameRef(w)).At? {
      i := FirstIndex(legs, SameRef(w));
      assert forall j | 0 <= j < i :: !SameRef(w)(legs[j]);
    } else {
      OnlyLegMeaning(legs, SameEpisode(w));
      i :| 0 <= i < |legs| && SameEpisode(w)(legs[i]) && WaitingLegByRef(w, snap) == At(legs[i]) &&
           forall j | 0 <= j < |legs| && j != i :: !SameEpisode(w)(legs[j]);
      forall j | 0 <= j < |legs|
        ensures !CarriesRef(w, legs[j]) && (j != i ==> !CarriesEpisode(w, legs[j]))
      {
        assert legs[j] in legs;
        assert j != i ==> !SameEpisode(w)(legs[j]);
      }
    }
  }

  lemma AbsentByLegs(w: Waiting, snap: Snapshot)
    ensures WaitingLegByRef(w, snap) == Absent <==> NoneCarries(w, snap.legs)
  {
    AbsentExactly(w, snap);
    assert (forall leg | leg in snap.legs :: !CarriesRef(w, leg) && !CarriesEpisode(w, leg)) <==>
           NoneCarries(w, snap.legs);
  }

  // --- What its state makes of it ---

  predicate AlertingAt(w: Waiting, legs: seq<LegSnapshot>, i: nat)
    requires i < |legs|
  {
    CallerAt(w, legs, i) && !legs[i].pendingRemoval && (legs[i].state == IncomingLeg || legs[i].state == WaitingLeg)
  }

  predicate TalkingAt(w: Waiting, legs: seq<LegSnapshot>, i: nat)
    requires i < |legs|
  {
    CallerAt(w, legs, i) && !legs[i].pendingRemoval && (legs[i].state == ActiveLeg || legs[i].state == HeldLeg)
  }

  // On a whole snapshot the caller's leg alerts, or has no number yet.
  predicate Alerts(w: Waiting, snap: Snapshot) {
    !snap.overflow &&
    ((exists i | 0 <= i < |snap.legs| :: AlertingAt(w, snap.legs, i)) ||
     (NoneCarries(w, snap.legs) && PendingEpisode(w, snap)))
  }

  predicate Talks(w: Waiting, snap: Snapshot) {
    !snap.overflow && exists i | 0 <= i < |snap.legs| :: TalkingAt(w, snap.legs, i)
  }

  predicate LeftUs(w: Waiting, snap: Snapshot) {
    !snap.overflow && NoneCarries(w, snap.legs) && !PendingEpisode(w, snap)
  }

  // What became of the caller is told by the legs that carry its identity alone.
  lemma SurvivalByLegs(w: Waiting, snap: Snapshot)
    ensures WaitingSurvival(w, snap) == StillRinging <==> Alerts(w, snap)
    ensures WaitingSurvival(w, snap) == NowConnected <==> Talks(w, snap)
    ensures WaitingSurvival(w, snap) == Gone <==> LeftUs(w, snap)
    ensures WaitingSurvival(w, snap) == Unresolved <==> !Alerts(w, snap) && !Talks(w, snap) && !LeftUs(w, snap)
  {
    var legs := snap.legs;
    forall i | 0 <= i < |legs| && CallerAt(w, legs, i) ensures WaitingLegByRef(w, snap) == At(legs[i]) {
      CallerIsFound(w, snap, i);
    }
    AbsentByLegs(w, snap);
    if WaitingLegByRef(w, snap).At? {
      var i := FoundIsCaller(w, snap);
      assert AlertingAt(w, legs, i) || TalkingAt(w, legs, i) || !(Alerts(w, snap) || Talks(w, snap));
    }
  }

  // --- What it makes of the session ---

  function Answered(w: Waiting): seq<Entry> {
    if w.number == "" then [] else [Entry(Received, w.number, w.name, w.caller)]
  }

  // The session goes live with the caller on display, logged received.
  predicate GoesLive(s: Session, inp: PollInput, r: Session) {
    var w := s.waiting;
    && r.phase == Live && r.route == Call && !r.waiting.pending
    && r.slots.primary.number == w.number && r.slots.primary.name == w.name && r.slots.primary.list == Received
    && (r.slots.primary.recordId != 0 <==> w.number != "")
    && r.slots.connectedMs == (if inp.now == 0 then 1 else inp.now)
    && r.incoming.active && r.incoming.recorded && r.incoming.caller == w.caller
    && r.store.register == s.store.register + Answered(w)
  }

  // The caller rings on the incoming-call screen, with nothing logged yet.
  predicate RingsOn(s: Session, inp: PollInput, r: Session) {
    var w := s.waiting;
    && r.phase == Setup && r.route == IncomingCall && !r.waiting.pending
    && r.slots.primary.number == w.number && r.slots.primary.name == w.name
    && r.incoming.active && !r.incoming.recorded && !r.incoming.answerPending && r.incoming.caller == w.caller
    && r.incoming.withheld == (w.withheld || inp.status.withheld)
    && r.incoming.diverted == (w.diverted || inp.status.diverted)
    && r.store.register == s.store.register
  }

  // The options of a call give way to the call itself.
  function ViewOf(route: Route): Route {
    if route == CallOptions then Call else route
  }

  predicate JoinsCall(s: Session, inp: PollInput, r: Session) {
    var w := s.waiting;
    && r.slots.secondary && !r.waiting.pending
    && r.slots.primary.number == w.number && r.slots.primary.name == w.name && r.slots.primary.list == Received
    && (r.slots.primary.recordId != 0 <==> w.number != "")
    && r.slots.held == s.slots.primary && r.route == ViewOf(s.route)
    && r.store.register == s.store.register + Answered(w)
  }

  // The caller is entered as missed; one who rings by now is presented in its place.
  predicate LoggedMissed(s: Session, inp: PollInput, r: Session) {
    var w := s.waiting;
    && !r.waiting.pending
    && (if inp.status.callState == Ringing then
          && r.route == IncomingCall && r.incoming.active && !r.incoming.recorded
          && r.slots.primary.number == inp.status.incomingNumber && r.slots.primary.name == inp.contactName
          && r.incoming.caller == s.nextCaller && r.nextCaller == s.nextCaller + 1
        else r.phase == s.phase && r.nextCaller == s.nextCaller && r.route == ViewOf(s.route))
    && r.store.register == s.store.register +
         if w.recorded then [] else [Entry(Missed, w.number, w.name, w.caller)]
  }

  // What a poll that no longer sees the caller waiting makes of the session: it joins
  // the running call when the network shows two, and otherwise its leg's state decides.
  predicate CallerSettled(s: Session, inp: PollInput, r: Session) {
    if inp.status.secondHeld && !s.slots.secondary then JoinsCall(s, inp, r)
    else if Talks(s.waiting, inp.snapshot) then GoesLive(s, inp, r)
    else if Alerts(s.waiting, inp.snapshot) then RingsOn(s, inp, r)
    else if LeftUs(s.waiting, inp.snapshot) then LoggedMissed(s, inp, r)
    else r.waiting == s.waiting && r.store.register == s.store.register
  }

  lemma OneFate(w: Waiting, snap: Snapshot)
    ensures !(Talks(w, snap) && Alerts(w, snap)) && !(Talks(w, snap) && LeftUs(w, snap))
    ensures !(Alerts(w, snap) && LeftUs(w, snap))
  {
    SurvivalByLegs(w, snap);
  }

  lemma HandoffsSettle(s: Session, inp: PollInput)
    ensures GoesLive(s, inp, HandoffToConnected(s.(asked := s.asked.(release := false, releaseId := 0)), inp))
    ensures RingsOn(s, inp, HandoffToIncoming(s.(asked := s.asked.(release := false, releaseId := 0)), inp))
  {}

  lemma JoinSettles(s: Session, inp: PollInput)
    ensures JoinsCall(s, inp, LeaveOptions(EstablishTwoCall(s, inp.now, inp.newRecordId)))
  {}

  lemma GoneSettles(s: Session, inp: PollInput)
    requires s.waiting.pending
    ensures LoggedMissed(s, inp, WaitingGone(s.(asked := s.asked.(release := false, releaseId := 0)), inp))
  {}

  lemma ResolvedByLegs(s: Session, inp: PollInput)
    requires s.waiting.pending
    ensures CallerSettled(s, inp, ResolveWaiting(s, inp))
  {
    SurvivalByLegs(s.waiting, inp.snapshot);
    HandoffsSettle(s, inp);
    JoinSettles(s, inp);
    GoneSettles(s, inp);
  }

  // The poll that finds a caller no longer waiting logs it received only when it joined
  // the running call or its leg is connected, and missed only when no leg and no alert
  // is left of it.
  lemma WaitingLoggedOnlyWhenDue(s: Session, inp: PollInput)
    requires s.waiting.pending && !s.waiting.recorded
    ensures var before, after := s.store.register, ResolveWaiting(s, inp).store.register;
      var w := s.waiting;
      after ==
        if (inp.status.secondHeld && !s.slots.secondary) || Talks(w, inp.snapshot) then before + Answered(w)
        else if LeftUs(w, inp.snapshot) then before + [Entry(Missed, w.number, w.name, w.caller)]
        else before
  {
    SurvivalByLegs(s.waiting, inp.snapshot);
    ResolvedByLegs(s, inp);
  }

  // What the stages before it may move.
  lemma ReconcileForCaller(s: Session, inp: PollInput, surface: bool)
    requires inp.status.secondHeld ==> inp.status.callState == Active
    ensures var r := Reconcile(s, inp, surface);
      && r.waiting == s.waiting && r.store.register == s.store.register && r.incoming == s.incoming
      && r.nextCaller == s.nextCaller && r.phase == s.phase && r.route == s.route
      && (inp.status.secondHeld && !s.slots.secondary ==> r.slots.primary == s.slots.primary)
      && (inp.status.secondHeld ==> r.slots.secondary == s.slots.secondary)
  {}

  // So does the whole poll, for every status in which a second held party comes with an
  // active one.
  lemma CallerSettledByPoll(s: Session, inp: PollInput)
    requires s.waiting.pending && !inp.status.waitingCall
    requires inp.status.secondHeld ==> inp.status.callState == Active
    ensures CallerSettled(s, inp, Poll(s, inp))
  {
    var surface := CallSurface(s.route);
    var r := Reconcile(s, inp, surface);
    ReconcileForCaller(s, inp, surface);
    ResolvedByLegs(r, inp);
    PollResolves(s, inp);
    SettledLater(s, r, inp, Poll(s, inp));
  }

  lemma PollResolves(s: Session, inp: PollInput)
    requires s.waiting.pending && !inp.status.waitingCall
    ensures Poll(s, inp) == ResolveWaiting(Reconcile(s, inp, CallSurface(s.route)), inp)
  {
    assert Reconcile(s, inp, CallSurface(s.route)).waiting == s.waiting;
  }

  lemma SettledLater(s: Session, r: Session, inp: PollInput, t: Session)
    requires r.waiting == s.waiting && r.store.register == s.store.register
    requires r.nextCaller == s.nextCaller && r.phase == s.phase && r.route == s.route
    requires inp.status.secondHeld && !s.slots.secondary ==> r.slots.primary == s.slots.primary
    requires inp.status.secondHeld ==> r.slots.secondary == s.slots.secondary
    requires CallerSettled(r, inp, t)
    ensures CallerSettled(s, inp, t)
  {}

  // --- The leg a caller is tied to ---

  // A leg that may be a caller nobody has tied to a leg yet.
  predicate MayBe(w: Waiting, leg: LegSnapshot) {
    && !leg.pendingRemoval && (leg.state == IncomingLeg || leg.state == WaitingLeg)
    && (w.episode == 0 || leg.episode == 0 || leg.episode == w.episode)
  }

  predicate OnlyOneMayBe(w: Waiting, legs: seq<LegSnapshot>, i: nat)
    requires i < |legs|
  {
    MayBe(w, legs[i]) && forall j | 0 <= j < |legs| && j != i :: !MayBe(w, legs[j])
  }

  // The leg to tie the caller to: its own while it alerts, or else the only one it may be.
  predicate Ties(w: Waiting, legs: seq<LegSnapshot>, i: nat)
    requires i < |legs|
  {
    AlertingAt(w, legs, i) || (NoneCarries(w, legs) && OnlyOneMayBe(w, legs, i))
  }

  // The caller with the episode of an alert that has no leg yet.
  function WithEpisode(w: Waiting, snap: Snapshot): Waiting {
    if w.episode == 0 && snap.pendingIncoming && snap.alertObserved then w.(episode := snap.pendingEpisode) else w
  }

  function TiedTo(w: Waiting, leg: LegSnapshot): Waiting {
    w.(id := leg.id, generation := leg.generation, episode := if leg.episode == 0 then w.episode else leg.episode)
  }

  lemma CandidateByLegs(w: Waiting, legs: seq<LegSnapshot>, i: nat)
    requires i < |legs| && OnlyOneMayBe(w, legs, i)
    ensures OnlyLeg(legs, Candidate(w)) == At(legs[i])
  {
    assert forall j | 0 <= j < |legs| :: Candidate(w)(legs[j]) <==> MayBe(w, legs[j]);
    OnlyLegAt(legs, Candidate(w), i);
  }

  lemma CandidateIsOne(w: Waiting, legs: seq<LegSnapshot>)
    ensures OnlyLeg(legs, Candidate(w)).At? ==> exists i | 0 <= i < |legs| :: OnlyOneMayBe(w, legs, i)
  {
    var p := Candidate(w);
    OnlyLegMeaning(legs, p);
    assert forall j | 0 <= j < |legs| :: p(legs[j]) <==> MayBe(w, legs[j]);
    if OnlyLeg(legs, p).At? {
      var i :| 0 <= i < |legs| && p(legs[i]) && forall j | 0 <= j < |legs| && j != i :: !p(legs[j]);
      assert OnlyOneMayBe(w, legs, i);
    }
  }

  lemma CapturedWhole(w: Waiting, snap: Snapshot, i: nat)
    requires !snap.overflow && i < |snap.legs| && Ties(WithEpisode(w, snap), snap.legs, i)
    ensures CaptureWaiting(w, snap) == TiedTo(WithEpisode(w, snap), snap.legs[i])
  {
    var v := WithEpisode(w, snap);
    if AlertingAt(v, snap.legs, i) {
      CallerIsFound(v, snap, i);
    } else {
      AbsentByLegs(v, snap);
      CandidateByLegs(v, snap.legs, i);
    }
    BoundTo(v, snap.legs[i]);
  }

  lemma BoundTo(w: Waiting, leg: LegSnapshot)
    requires !leg.pendingRemoval && (leg.state == IncomingLeg || leg.state == WaitingLeg)
    ensures BindWaiting(w, leg) == TiedTo(w, leg)
  {}

  // On a whole snapshot the caller is tied to exactly that leg; without one it keeps the
  // identity it had, and a snapshot cut short changes nothing.
  lemma CapturedExactly(w: Waiting, snap: Snapshot)
    ensures var v, r := WithEpisode(w, snap), CaptureWaiting(w, snap);
      if snap.overflow then r == w
      else
        && (forall i | 0 <= i < |snap.legs| && Ties(v, snap.legs, i) :: r == TiedTo(v, snap.legs[i]))
        && ((forall i | 0 <= i < |snap.legs| :: !Ties(v, snap.legs, i)) ==> r == v)
  {
    var v := WithEpisode(w, snap);
    if !snap.overflow {
      forall i | 0 <= i < |snap.legs| && Ties(v, snap.legs, i)
        ensures CaptureWaiting(w, snap) == TiedTo(v, snap.legs[i])
      {
        CapturedWhole(w, snap, i);
      }
      if forall i | 0 <= i < |snap.legs| :: !Ties(v, snap.legs, i) {
        NotCaptured(w, snap);
      }
    }
  }

  lemma NotCaptured(w: Waiting, snap: Snapshot)
    requires !snap.overflow && forall i | 0 <= i < |snap.legs| :: !Ties(WithEpisode(w, snap), snap.legs, i)
    ensures CaptureWaiting(w, snap) == WithEpisode(w, snap)
  {
    var v := WithEpisode(w, snap);
    AbsentByLegs(v, snap);
    if WaitingLegByRef(v, snap).At? {
      var i := FoundIsCaller(v, snap);
      assert !Ties(v, snap.legs, i);
    } else if WaitingLegByRef(v, snap) == Absent {
      forall i | 0 <= i < |snap.legs| ensures !OnlyOneMayBe(v, snap.legs, i) {
        assert !Ties(v, snap.legs, i);
      }
      CandidateIsOne(v, snap.legs);
    }
  }
}
