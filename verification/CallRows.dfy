// The published row by the legs and the transactions alone: which state the phone is
// told it is in, which leg it is told of, and when nothing new is published.

module CallRows {
  import opened Wrappers
  import opened Timebase
  import opened CallTypes
  import opened P = CallProjection
  import opened CallPublication

  // --- What each leg says ---

  predicate Leaving(leg: ModelLeg) {
    leg.inUse && (leg.pendingRemoval || leg.state == ReleasingLeg)
  }

  predicate Present(leg: ModelLeg) {
    leg.inUse && !leg.pendingRemoval && leg.state != ReleasingLeg
  }

  predicate Going(t: Txn) {
    t.inUse && (t.state == Pending || t.state == Dispatched || t.state == Bound || t.state == Uncertain)
  }

  // A dial still in doubt may own this leg.
  predicate InDoubt(txns: seq<Txn>, leg: ModelLeg) {
    exists t | t in txns ::
      Going(t) && t.kind == DialTxn && !t.dirConfirmed && t.boundId == leg.id && t.boundGeneration == leg.generation
  }

  // The leg is active, or held.
  predicate Is(txns: seq<Txn>, leg: ModelLeg, role: LegState) {
    Present(leg) && leg.state == role && (role == ActiveLeg ==> !InDoubt(txns, leg))
  }

  // It is on its way out and was published so.
  predicate Was(leg: ModelLeg, role: LegState) {
    Leaving(leg) && leg.role == role
  }

  predicate Alerting(leg: ModelLeg) {
    || (Present(leg) && (leg.state == IncomingLeg || leg.state == WaitingLeg))
    || (Leaving(leg) && (leg.role == IncomingLeg || leg.role == WaitingLeg))
  }

  predicate GoingOut(leg: ModelLeg) {
    Present(leg) && (leg.state == DialingLeg || leg.state == AlertingLeg)
  }

  predicate SomebodyRings(m: Model) {
    m.ringing || exists leg | leg in m.legs :: Alerting(leg)
  }

  predicate SomebodyDials(m: Model) {
    || (exists t | t in m.txns :: Going(t) && t.kind == DialTxn)
    || exists leg | leg in m.legs :: GoingOut(leg)
  }

  predicate Answers(m: Model) {
    exists t | t in m.txns :: Going(t) && t.kind == AnswerTxn
  }

  // A second call being set up that is known to be one.
  predicate Second(t: Txn) {
    Going(t) && t.secondMo && (t.kind == AnswerTxn || (t.kind == DialTxn && t.dirConfirmed))
  }

  // --- Who has a role ---

  // The one leg that is so, or where none is the one on its way out that was.
  predicate OwnsAt(m: Model, role: LegState, i: nat)
    requires i < |m.legs|
  {
    || (Is(m.txns, m.legs[i], role) && forall j | 0 <= j < |m.legs| && j != i :: !Is(m.txns, m.legs[j], role))
    || (Was(m.legs[i], role) && forall j | 0 <= j < |m.legs| ::
          !Is(m.txns, m.legs[j], role) && (j != i ==> !Was(m.legs[j], role)))
  }

  predicate Owned(m: Model, role: LegState) {
    exists i | 0 <= i < |m.legs| :: OwnsAt(m, role, i)
  }

  // Two legs are so, or none is and two on their way out were.
  predicate Contested(m: Model, role: LegState) {
    || (exists i, j | 0 <= i < j < |m.legs| :: Is(m.txns, m.legs[i], role) && Is(m.txns, m.legs[j], role))
    || ((forall j | 0 <= j < |m.legs| :: !Is(m.txns, m.legs[j], role)) &&
        exists i, j | 0 <= i < j < |m.legs| :: Was(m.legs[i], role) && Was(m.legs[j], role))
  }

  lemma SameReading(txns: seq<Txn>, leg: ModelLeg, role: LegState)
    ensures Genuine(txns, leg, role) == Is(txns, leg, role) && Retained(leg, role) == Was(leg, role)
  {
    if Tentative(txns, leg) {
      var i :| 0 <= i < |txns| && Claims(txns[i], leg);
      assert txns[i] in txns;
    }
    if InDoubt(txns, leg) {
      var t :| t in txns && Going(t) && t.kind == DialTxn && !t.dirConfirmed && t.boundId == leg.id &&
               t.boundGeneration == leg.generation;
      var i :| 0 <= i < |txns| && txns[i] == t;
      assert Claims(txns[i], leg);
    }
  }

  lemma {:induction false} TwoGenuine(txns: seq<Txn>, legs: seq<ModelLeg>, role: LegState)
    ensures CountGenuine(txns, legs, role) > 1 <==>
      exists i, j | 0 <= i < j < |legs| :: Genuine(txns, legs[i], role) && Genuine(txns, legs[j], role)
  {
    if legs != [] {
      var n := |legs| - 1;
      var init := legs[..n];
      TwoGenuine(txns, init, role);
      CountNone(txns, init, role);
      assert forall i | 0 <= i < n :: init[i] == legs[i];
    }
  }

  lemma {:induction false} TwoRetained(legs: seq<ModelLeg>, role: LegState)
    ensures CountRetained(legs, role) > 1 <==>
      exists i, j | 0 <= i < j < |legs| :: Retained(legs[i], role) && Retained(legs[j], role)
  {
    if legs != [] {
      var n := |legs| - 1;
      var init := legs[..n];
      TwoRetained(init, role);
      CountNone([], init, role);
      assert forall i | 0 <= i < n :: init[i] == legs[i];
    }
  }

  lemma ContestedExactly(m: Model, role: LegState)
    ensures HolderOf(m.txns, m.legs, role) == Clash <==> Contested(m, role)
  {
    forall i | 0 <= i < |m.legs|
      ensures Genuine(m.txns, m.legs[i], role) == Is(m.txns, m.legs[i], role)
      ensures Retained(m.legs[i], role) == Was(m.legs[i], role)
    {
      SameReading(m.txns, m.legs[i], role);
    }
    TwoGenuine(m.txns, m.legs, role);
    TwoRetained(m.legs, role);
    CountNone(m.txns, m.legs, role);
  }

  lemma OwnerHolds(m: Model, role: LegState, i: nat)
    requires i < |m.legs| && OwnsAt(m, role, i)
    ensures HolderOf(m.txns, m.legs, role) == Holder(m.legs[i].id)
  {
    forall j | 0 <= j < |m.legs|
      ensures Genuine(m.txns, m.legs[j], role) == Is(m.txns, m.legs[j], role)
      ensures Retained(m.legs[j], role) == Was(m.legs[j], role)
    {
      SameReading(m.txns, m.legs[j], role);
    }
    if Is(m.txns, m.legs[i], role) {
      TheGenuine(m.txns, m.legs, role, i);
    } else {
      CountNone(m.txns, m.legs, role);
      TheRetained(m.legs, role, i);
    }
  }

  lemma HolderOwns(m: Model, role: LegState)
    requires HolderOf(m.txns, m.legs, role).Holder?
    ensures Owned(m, role)
  {
    forall j | 0 <= j < |m.legs|
      ensures Genuine(m.txns, m.legs[j], role) == Is(m.txns, m.legs[j], role)
      ensures Retained(m.legs[j], role) == Was(m.legs[j], role)
    {
      SameReading(m.txns, m.legs[j], role);
    }
    CountNone(m.txns, m.legs, role);
    if CountGenuine(m.txns, m.legs, role) == 1 {
      var i := OneGenuine(m.txns, m.legs, role);
      assert OwnsAt(m, role, i);
    } else {
      var i := OneRetained(m.legs, role);
      assert OwnsAt(m, role, i);
    }
  }

  lemma NobodyUnowned(m: Model, role: LegState)
    ensures HolderOf(m.txns, m.legs, role).Holder? <==> Owned(m, role)
  {
    if Owned(m, role) {
      var i :| 0 <= i < |m.legs| && OwnsAt(m, role, i);
      OwnerHolds(m, role, i);
    }
    if HolderOf(m.txns, m.legs, role).Holder? {
      HolderOwns(m, role);
    }
  }

  // --- The second call ---

  // The first transaction that sets up a second call.
  predicate LeadsAt(txns: seq<Txn>, i: nat)
    requires i < |txns|
  {
    Second(txns[i]) && forall j | 0 <= j < i :: !Second(txns[j])
  }

  predicate NoneSecond(txns: seq<Txn>) {
    forall i | 0 <= i < |txns| :: !Second(txns[i])
  }

  lemma {:induction false} LeaderDominates(txns: seq<Txn>, i: nat)
    requires i < |txns| && LeadsAt(txns, i)
    ensures FirstDominating(txns) == Some(txns[i].kind)
  {
    if i > 0 {
      assert !Second(txns[0]);
      LeaderDominates(txns[1..], i - 1);
    }
  }

  lemma {:induction false} NoneDominates(txns: seq<Txn>)
    requires NoneSecond(txns)
    ensures FirstDominating(txns) == None
  {
    if txns != [] {
      assert !Second(txns[0]);
      NoneDominates(txns[1..]);
    }
  }

  lemma {:induction false} LeaderExists(txns: seq<Txn>)
    requires !NoneSecond(txns)
    ensures exists i | 0 <= i < |txns| :: LeadsAt(txns, i)
  {
    if Second(txns[0]) {
      assert LeadsAt(txns, 0);
    } else {
      assert exists i | 0 <= i < |txns[1..]| :: Second(txns[1..][i]) by {
        var i :| 0 <= i < |txns| && Second(txns[i]);
        assert txns[1..][i - 1] == txns[i];
      }
      LeaderExists(txns[1..]);
      var k :| 0 <= k < |txns[1..]| && LeadsAt(txns[1..], k);
      assert forall j | 0 < j <= k + 1 :: txns[j] == txns[1..][j - 1];
      assert LeadsAt(txns, k + 1);
    }
  }

  // --- The row ---

  // Nobody is connected.
  predicate QuietRow(m: Model, r: Row) {
    && r.activeId == 0 && !r.onHold && !r.secondHeld && !r.waitingCall
    && (r.callState == Answering <==> Answers(m))
    && (r.callState == Ringing <==> !Answers(m) && SomebodyRings(m))
    && (r.callState == Dialing <==> !Answers(m) && !SomebodyRings(m) && SomebodyDials(m))
    && (r.callState == CallState.Idle <==> !Answers(m) && !SomebodyRings(m) && !SomebodyDials(m))
    && (r.ring <==> r.callState == Ringing)
    && r.secondResult == if r.callState == CallState.Idle then NoResult else m.published.secondResult
  }

  // Somebody is connected.
  predicate ConnectedRow(m: Model, r: Row) {
    && r.secondResult == m.published.secondResult
    && (forall i | 0 <= i < |m.legs| && OwnsAt(m, ActiveLeg, i) :: r.activeId == m.legs[i].id)
    && (!Owned(m, ActiveLeg) ==> forall i | 0 <= i < |m.legs| && OwnsAt(m, HeldLeg, i) :: r.activeId == m.legs[i].id)
    && (NoneSecond(m.txns) ==>
          && r.callState == CallState.Active
          && (r.onHold <==> !Owned(m, ActiveLeg))
          && (r.secondHeld <==> Owned(m, ActiveLeg) && Owned(m, HeldLeg))
          && (r.waitingCall <==> SomebodyRings(m)) && (r.ring <==> SomebodyRings(m)))
    && (forall i | 0 <= i < |m.txns| && LeadsAt(m.txns, i) ::
          && r.callState == (if m.txns[i].kind == AnswerTxn then Answering else Dialing)
          && !r.onHold && !r.secondHeld && !r.waitingCall && !r.ring)
  }

  predicate Connected(m: Model) {
    Owned(m, ActiveLeg) || Owned(m, HeldLeg)
  }

  lemma RingsByLegs(m: Model)
    ensures m.ringing || RingsIn(m.legs) <==> SomebodyRings(m)
  {
    if leg :| leg in m.legs && Alerting(leg) {
      var i :| 0 <= i < |m.legs| && m.legs[i] == leg;
      assert RingingLeg(m.legs[i]);
    }
    if i :| 0 <= i < |m.legs| && RingingLeg(m.legs[i]) {
      assert m.legs[i] in m.legs && Alerting(m.legs[i]);
    }
  }

  lemma SetsUpByTxns(txns: seq<Txn>, kind: TxnKind)
    ensures SetsUp(txns, kind) <==> exists t | t in txns :: Going(t) && t.kind == kind
  {
    if i :| 0 <= i < |txns| && InSetup(txns[i]) && txns[i].kind == kind {
      assert txns[i] in txns && Going(txns[i]);
    }
    if t :| t in txns && Going(t) && t.kind == kind {
      var i :| 0 <= i < |txns| && txns[i] == t;
      assert InSetup(txns[i]);
    }
  }

  lemma DialsByLegs(m: Model)
    ensures SetsUp(m.txns, DialTxn) || DialsIn(m.legs) <==> SomebodyDials(m)
  {
    SetsUpByTxns(m.txns, DialTxn);
    if i :| 0 <= i < |m.legs| && DialingIn(m.legs[i]) {
      assert m.legs[i] in m.legs && GoingOut(m.legs[i]);
    }
    if leg :| leg in m.legs && GoingOut(leg) {
      var i :| 0 <= i < |m.legs| && m.legs[i] == leg;
      assert DialingIn(m.legs[i]);
    }
  }

  lemma LeavingByLegs(m: Model)
    ensures AnyTransient(m.legs) <==> exists leg | leg in m.legs :: Leaving(leg)
  {
    if i :| 0 <= i < |m.legs| && Transient(m.legs[i]) {
      assert m.legs[i] in m.legs && Leaving(m.legs[i]);
    }
    if leg :| leg in m.legs && Leaving(leg) {
      var i :| 0 <= i < |m.legs| && m.legs[i] == leg;
      assert Transient(m.legs[i]);
    }
  }

  predicate RowSays(m: Model, r: Row) {
    && r.lastResult == m.published.lastResult
    && if Connected(m) then ConnectedRow(m, r) else QuietRow(m, r)
  }

  lemma QuietSays(m: Model)
    requires P.Published(m).Some? && !Connected(m)
    ensures QuietRow(m, P.Published(m).value)
  {
    NobodyUnowned(m, ActiveLeg);
    NobodyUnowned(m, HeldLeg);
    RingsByLegs(m);
    DialsByLegs(m);
    SetsUpByTxns(m.txns, AnswerTxn);
  }

  lemma ConnectedSays(m: Model)
    requires P.Published(m).Some? && Connected(m)
    ensures ConnectedRow(m, P.Published(m).value)
  {
    NobodyUnowned(m, ActiveLeg);
    NobodyUnowned(m, HeldLeg);
    RingsByLegs(m);
    if NoneSecond(m.txns) {
      NoneDominates(m.txns);
    }
    forall i | 0 <= i < |m.txns| && LeadsAt(m.txns, i) ensures FirstDominating(m.txns) == Some(m.txns[i].kind) {
      LeaderDominates(m.txns, i);
    }
    forall i | 0 <= i < |m.legs| && OwnsAt(m, ActiveLeg, i)
      ensures HolderOf(m.txns, m.legs, ActiveLeg) == Holder(m.legs[i].id)
    {
      OwnerHolds(m, ActiveLeg, i);
    }
    forall i | 0 <= i < |m.legs| && OwnsAt(m, HeldLeg, i)
      ensures HolderOf(m.txns, m.legs, HeldLeg) == Holder(m.legs[i].id)
    {
      OwnerHolds(m, HeldLeg, i);
    }
  }

  // With nobody connected the phone is told of an answer in the making, else of a caller
  // who rings, else of a call being dialled, else that it is idle. With somebody
  // connected it is told of that leg, and of the kind of the first second call being set
  // up, or else who is on hold and whether somebody else rings.
  lemma PublishedSays(m: Model)
    requires P.Published(m).Some?
    ensures RowSays(m, P.Published(m).value)
    ensures Connected(m) && !NoneSecond(m.txns) ==> exists i | 0 <= i < |m.txns| :: LeadsAt(m.txns, i)
  {
    if Connected(m) {
      ConnectedSays(m);
      if !NoneSecond(m.txns) {
        LeaderExists(m.txns);
      }
    } else {
      QuietSays(m);
    }
  }

  // Nothing new is published exactly when two legs contest a role, or when all that is
  // left is a leg on its way out.
  lemma NothingNewExactly(m: Model)
    ensures P.Published(m) == None <==>
      || Contested(m, ActiveLeg) || Contested(m, HeldLeg)
      || (!Connected(m) && !Answers(m) && !SomebodyRings(m) && !SomebodyDials(m) &&
          exists leg | leg in m.legs :: Leaving(leg))
  {
    ContestedExactly(m, ActiveLeg);
    ContestedExactly(m, HeldLeg);
    NobodyUnowned(m, ActiveLeg);
    NobodyUnowned(m, HeldLeg);
    RingsByLegs(m);
    DialsByLegs(m);
    SetsUpByTxns(m.txns, AnswerTxn);
    LeavingByLegs(m);
  }

  // --- What each leg remembers ---

  function Remembered(txns: seq<Txn>, leg: ModelLeg): LegState {
    if Leaving(leg) then leg.role
    else if leg.state == ActiveLeg && InDoubt(txns, leg) then UnknownLeg
    else if leg.state == AlertingLeg then DialingLeg
    else leg.state
  }

  // A publication leaves every leg remembering its own state, a dial and its alerting
  // alike, and an active leg in doubt as unknown; one on its way out keeps its memory.
  lemma RolesSay(m: Model, i: nat)
    requires P.Published(m).Some? && i < |m.legs| && m.legs[i].inUse
    ensures Project(m).legs[i] == m.legs[i].(role := Remembered(m.txns, m.legs[i]))
  {
    var leg := m.legs[i];
    SameReading(m.txns, leg, ActiveLeg);
    SameReading(m.txns, leg, HeldLeg);
    if Genuine(m.txns, leg, ActiveLeg) {
      GenuineIsHolder(m.txns, m.legs, ActiveLeg, i);
    } else if Genuine(m.txns, leg, HeldLeg) {
      GenuineIsHolder(m.txns, m.legs, HeldLeg, i);
    }
  }
}
