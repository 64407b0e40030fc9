// What the published row means: it says what the display session assumes of the
// network, and a leg that is only suspected gone never changes it.

module CallPublication {
  import opened Wrappers
  import opened Timebase
  import opened CallTypes
  import opened CallDisplay
  import opened P = CallProjection

  // --- Rows ---

  // Every row there can be.
  predicate Consistent(r: Row) {
    && (r.secondHeld ==> r.callState == CallState.Active && !r.onHold)
    && (r.onHold || r.waitingCall ==> r.callState == CallState.Active)
    && (r.activeId != 0 ==> r.callState == CallState.Active || r.callState == Dialing || r.callState == Answering)
    && (r.ring <==> r.waitingCall || r.callState == Ringing)
    && (r.callState == CallState.Idle ==> r.secondResult == NoResult)
  }

  lemma PublishedIsConsistent(m: Model)
    requires P.Published(m).Some?
    ensures Consistent(P.Published(m).value)
  {}

  // --- Counting one leg ---

  lemma {:induction false} CountNone(txns: seq<Txn>, legs: seq<ModelLeg>, role: LegState)
    ensures (CountGenuine(txns, legs, role) == 0) <==> forall i | 0 <= i < |legs| :: !Genuine(txns, legs[i], role)
    ensures (CountRetained(legs, role) == 0) <==> forall i | 0 <= i < |legs| :: !Retained(legs[i], role)
  {
    if legs != [] {
      var init := legs[..|legs| - 1];
      CountNone(txns, init, role);
      assert forall i | 0 <= i < |init| :: init[i] == legs[i];
    }
  }

  lemma {:induction false} TheGenuine(txns: seq<Txn>, legs: seq<ModelLeg>, role: LegState, i: nat)
    requires i < |legs| && Genuine(txns, legs[i], role)
    requires forall j | 0 <= j < |legs| && j != i :: !Genuine(txns, legs[j], role)
    ensures CountGenuine(txns, legs, role) == 1 && GenuineId(txns, legs, role) == legs[i].id
  {
    var init := legs[..|legs| - 1];
    assert forall j | 0 <= j < |init| :: init[j] == legs[j];
    if i == |init| {
      CountNone(txns, init, role);
    } else {
      TheGenuine(txns, init, role, i);
    }
  }

  lemma {:induction false} TheRetained(legs: seq<ModelLeg>, role: LegState, i: nat)
    requires i < |legs| && Retained(legs[i], role)
    requires forall j | 0 <= j < |legs| && j != i :: !Retained(legs[j], role)
    ensures CountRetained(legs, role) == 1 && RetainedId(legs, role) == legs[i].id
  {
    var init := legs[..|legs| - 1];
    assert forall j | 0 <= j < |init| :: init[j] == legs[j];
    if i == |init| {
      CountNone([], init, role);
    } else {
      TheRetained(init, role, i);
    }
  }

  // --- A settled table publishes what the display assumes ---

  predicate Settled(m: Model) {
    && (forall i | 0 <= i < |m.txns| :: !InSetup(m.txns[i]))
    && forall i | 0 <= i < |m.legs| && m.legs[i].inUse ::
         var leg := m.legs[i];
         !leg.pendingRemoval && (leg.state == ActiveLeg || leg.state == HeldLeg || Rings(leg.state))
  }

  predicate InState(leg: ModelLeg, state: LegState) {
    leg.inUse && leg.state == state
  }

  // The only leg in this state is the one with this id.
  predicate OnlyIn(m: Model, state: LegState, id: u8) {
    exists i | 0 <= i < |m.legs| :: OnlyAt(m, state, id, i)
  }

  predicate OnlyAt(m: Model, state: LegState, id: u8, i: nat)
    requires i < |m.legs|
  {
    InState(m.legs[i], state) && m.legs[i].id == id &&
    forall j | 0 <= j < |m.legs| && j != i :: !InState(m.legs[j], state)
  }

  predicate NoneIn(m: Model, state: LegState) {
    forall i | 0 <= i < |m.legs| :: !InState(m.legs[i], state)
  }

  // The table holds exactly the legs of this network; other callers may be waiting.
  predicate Holds(m: Model, p: Parties, net: Net) {
    && Settled(m)
    && match net
       case Both(w) => OnlyIn(m, ActiveLeg, p.Id(w)) && OnlyIn(m, HeldLeg, p.Id(Other(w)))
       case Sole(w) =>
         || (OnlyIn(m, ActiveLeg, p.Id(w)) && NoneIn(m, HeldLeg))
         || (OnlyIn(m, HeldLeg, p.Id(w)) && NoneIn(m, ActiveLeg))
       case Nobody => !m.ringing && forall i | 0 <= i < |m.legs| :: !m.legs[i].inUse
  }

  // The status the app reads, with what else it carries.
  function StatusOf(r: Row, st: Status): Status {
    st.(callState := r.callState, lastResult := r.lastResult, secondResult := r.secondResult,
        activeId := r.activeId, secondHeld := r.secondHeld, onHold := r.onHold, waitingCall := r.waitingCall)
  }

  lemma SettledHolder(m: Model, role: LegState)
    requires Settled(m) && (role == ActiveLeg || role == HeldLeg)
    ensures forall id | OnlyIn(m, role, id) :: HolderOf(m.txns, m.legs, role) == Holder(id)
    ensures NoneIn(m, role) ==> HolderOf(m.txns, m.legs, role) == P.Nobody
  {
    CountNone(m.txns, m.legs, role);
    assert forall leg :: !Tentative(m.txns, leg);
    forall id | OnlyIn(m, role, id) ensures HolderOf(m.txns, m.legs, role) == Holder(id) {
      var i :| 0 <= i < |m.legs| && OnlyAt(m, role, id, i);
      TheGenuine(m.txns, m.legs, role, i);
    }
  }

  lemma {:induction false} NoSetupDominates(txns: seq<Txn>)
    requires forall i | 0 <= i < |txns| :: !InSetup(txns[i])
    ensures FirstDominating(txns) == None
  {
    if txns != [] {
      NoSetupDominates(txns[1..]);
    }
  }

  // Whatever the order of the table and whoever waits, the status published of it is
  // the one the display session is proved against.
  lemma SettledProjects(m: Model, p: Parties, net: Net, st: Status)
    requires Holds(m, p, net)
    ensures P.Published(m).Some? && Projects(p, net, StatusOf(P.Published(m).value, st))
  {
    SettledHolder(m, ActiveLeg);
    SettledHolder(m, HeldLeg);
    NoSetupDominates(m.txns);
    if net == CallDisplay.Nobody {
      assert NoneIn(m, ActiveLeg) && NoneIn(m, HeldLeg);
    }
  }

  // --- Suspicion ---

  // The leg as it was, or found to be going.
  predicate MayBeGoing(leg: ModelLeg, later: ModelLeg) {
    later == leg ||
    (leg.inUse && Transient(later) &&
     later.id == leg.id && later.generation == leg.generation && later.role == leg.role)
  }

  predicate SomeGoing(legs: seq<ModelLeg>, later: seq<ModelLeg>) {
    |later| == |legs| && forall i | 0 <= i < |legs| :: MayBeGoing(legs[i], later[i])
  }

  // How often a leg stands for a role.
  function Claim(txns: seq<Txn>, leg: ModelLeg, role: LegState): nat {
    (if Genuine(txns, leg, role) then 1 else 0) + if Retained(leg, role) then 1 else 0
  }

  predicate SameClaims(txns: seq<Txn>, legs: seq<ModelLeg>, later: seq<ModelLeg>, role: LegState) {
    && |later| == |legs|
    && forall i | 0 <= i < |legs| ::
         && Claim(txns, later[i], role) == Claim(txns, legs[i], role)
         && (Genuine(txns, later[i], role) ==> Genuine(txns, legs[i], role))
         && later[i].id == legs[i].id
  }

  lemma {:induction false} ClaimsAddUp(txns: seq<Txn>, legs: seq<ModelLeg>, later: seq<ModelLeg>, role: LegState)
    requires SameClaims(txns, legs, later, role)
    ensures CountGenuine(txns, later, role) + CountRetained(later, role) ==
            CountGenuine(txns, legs, role) + CountRetained(legs, role)
    ensures CountGenuine(txns, later, role) <= CountGenuine(txns, legs, role)
  {
    if legs != [] {
      var n := |legs| - 1;
      InitClaims(txns, legs, later, role);
      ClaimsAddUp(txns, legs[..n], later[..n], role);
      assert Claim(txns, later[n], role) == Claim(txns, legs[n], role);
    }
  }

  lemma InitClaims(txns: seq<Txn>, legs: seq<ModelLeg>, later: seq<ModelLeg>, role: LegState)
    requires legs != [] && SameClaims(txns, legs, later, role)
    ensures SameClaims(txns, legs[..|legs| - 1], later[..|legs| - 1], role)
  {
    var n := |legs| - 1;
    assert forall i | 0 <= i < n :: legs[..n][i] == legs[i] && later[..n][i] == later[i];
  }

  lemma {:induction false} OneGenuine(txns: seq<Txn>, legs: seq<ModelLeg>, role: LegState) returns (i: nat)
    requires CountGenuine(txns, legs, role) == 1
    ensures i < |legs| && Genuine(txns, legs[i], role) && legs[i].id == GenuineId(txns, legs, role)
    ensures forall j | 0 <= j < |legs| && j != i :: !Genuine(txns, legs[j], role)
  {
    var n := |legs| - 1;
    assert forall j | 0 <= j < n :: legs[..n][j] == legs[j];
    if Genuine(txns, legs[n], role) {
      i := n;
      CountNone(txns, legs[..n], role);
    } else {
      i := OneGenuine(txns, legs[..n], role);
    }
  }

  lemma {:induction false} OneRetained(legs: seq<ModelLeg>, role: LegState) returns (i: nat)
    requires CountRetained(legs, role) == 1
    ensures i < |legs| && Retained(legs[i], role) && legs[i].id == RetainedId(legs, role)
    ensures forall j | 0 <= j < |legs| && j != i :: !Retained(legs[j], role)
  {
    var n := |legs| - 1;
    assert forall j | 0 <= j < n :: legs[..n][j] == legs[j];
    if CountRetained(legs[..n], role) == 0 {
      i := n;
      CountNone([], legs[..n], role);
    } else {
      i := OneRetained(legs[..n], role);
    }
  }

  // Who has the role is the same, or in doubt.
  lemma SameHolder(txns: seq<Txn>, legs: seq<ModelLeg>, later: seq<ModelLeg>, role: LegState)
    requires SameClaims(txns, legs, later, role) && HolderOf(txns, legs, role) != Clash
    ensures HolderOf(txns, later, role) == HolderOf(txns, legs, role) || HolderOf(txns, later, role) == Clash
  {
    ClaimsAddUp(txns, legs, later, role);
    CountNone(txns, legs, role);
    CountNone(txns, later, role);
    if CountGenuine(txns, legs, role) == 1 {
      var i := OneGenuine(txns, legs, role);
      assert Claim(txns, later[i], role) == Claim(txns, legs[i], role);
      if CountGenuine(txns, later, role) == 1 {
        var j := OneGenuine(txns, later, role);
        assert Genuine(txns, later[j], role);
        assert j == i;
      } else if CountRetained(later, role) == 1 {
        var j := OneRetained(later, role);
        assert Retained(later[i], role);
        assert j == i;
      }
    } else if CountRetained(legs, role) == 1 {
      var i := OneRetained(legs, role);
      var j := OneRetained(later, role);
      assert Claim(txns, later[j], role) == Claim(txns, legs[j], role);
      assert j == i;
    }
  }

  // After a publication a leg claims a role by being it or by having been published so.
  lemma PublishedClaims(m: Model, later: seq<ModelLeg>, role: LegState)
    requires role == ActiveLeg || role == HeldLeg
    requires P.Published(m).Some? && SomeGoing(Project(m).legs, later)
    ensures SameClaims(m.txns, m.legs, later, role)
  {
    var active, held := HolderOf(m.txns, m.legs, ActiveLeg), HolderOf(m.txns, m.legs, HeldLeg);
    forall i | 0 <= i < |m.legs|
      ensures Claim(m.txns, later[i], role) == Claim(m.txns, m.legs[i], role)
      ensures Genuine(m.txns, later[i], role) ==> Genuine(m.txns, m.legs[i], role)
      ensures later[i].id == m.legs[i].id
    {
      var leg := m.legs[i];
      assert MayBeGoing(Project(m).legs[i], later[i]);
      if Genuine(m.txns, leg, role) {
        GenuineIsHolder(m.txns, m.legs, role, i);
      }
    }
  }

  lemma GenuineIsHolder(txns: seq<Txn>, legs: seq<ModelLeg>, role: LegState, i: nat)
    requires i < |legs| && Genuine(txns, legs[i], role) && HolderOf(txns, legs, role) != Clash
    ensures HolderOf(txns, legs, role) == Holder(legs[i].id)
  {
    CountNone(txns, legs, role);
    var j := OneGenuine(txns, legs, role);
  }

  lemma SameRings(m: Model, later: seq<ModelLeg>)
    requires P.Published(m).Some? && SomeGoing(Project(m).legs, later)
    ensures RingsIn(later) == RingsIn(m.legs)
  {
    forall i | 0 <= i < |m.legs| ensures RingingLeg(later[i]) == RingingLeg(m.legs[i]) {
      assert MayBeGoing(Project(m).legs[i], later[i]);
    }
    if i :| 0 <= i < |m.legs| && RingingLeg(m.legs[i]) {
      assert RingingLeg(later[i]);
    }
    if i :| 0 <= i < |later| && RingingLeg(later[i]) {
      assert RingingLeg(m.legs[i]);
    }
  }

  lemma DialsOrGoing(m: Model, later: seq<ModelLeg>)
    requires P.Published(m).Some? && SomeGoing(Project(m).legs, later)
    ensures DialsIn(later) ==> DialsIn(m.legs)
    ensures DialsIn(m.legs) && !DialsIn(later) ==> AnyTransient(later)
  {
    if i :| 0 <= i < |later| && DialingIn(later[i]) {
      assert MayBeGoing(Project(m).legs[i], later[i]);
      assert DialingIn(m.legs[i]);
    }
    if i :| 0 <= i < |m.legs| && DialingIn(m.legs[i]) {
      assert MayBeGoing(Project(m).legs[i], later[i]);
      assert DialingIn(later[i]) || Transient(later[i]);
    }
  }

  // Whatever legs are then found to be going, suspected or being released, one or all
  // of them, the next projection publishes exactly what was published before.
  lemma SuspicionChangesNothing(m: Model, later: seq<ModelLeg>)
    requires P.Published(m).Some? && SomeGoing(Project(m).legs, later)
    ensures Project(Project(m).(legs := later)).published == Project(m).published
  {
    PublishedClaims(m, later, ActiveLeg);
    PublishedClaims(m, later, HeldLeg);
    SameHolder(m.txns, m.legs, later, ActiveLeg);
    SameHolder(m.txns, m.legs, later, HeldLeg);
    SameRings(m, later);
    DialsOrGoing(m, later);
  }
}
