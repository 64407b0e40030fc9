// What the call model publishes of its leg table (src/services/modem_call_model.c,
// call_model_project): one row of the flat status from any legs, setups and rings.

module CallProjection {
  import opened Wrappers
  import opened Timebase
  import opened CallTypes

  datatype ModelLeg = ModelLeg(inUse: bool, id: u8, generation: u8, state: LegState,
                               pendingRemoval: bool, role: LegState)

  datatype TxnKind = DialTxn | AnswerTxn | OtherTxn

  datatype TxnState = Pending | Dispatched | Bound | Uncertain | Succeeded | Failed | Cancelled

  datatype Txn = Txn(inUse: bool, kind: TxnKind, state: TxnState, secondMo: bool, dirConfirmed: bool,
                     boundId: u8, boundGeneration: u8)

  // The flat call status and the results carried in it.
  datatype Row = Row(callState: CallState, activeId: u8, onHold: bool, secondHeld: bool, waitingCall: bool,
                     ring: bool, lastResult: CallResult, secondResult: CallResult)

  // ringing says a caller without an id is alerting.
  datatype Model = Model(legs: seq<ModelLeg>, txns: seq<Txn>, ringing: bool, published: Row)

  // --- What legs and setups say ---

  predicate Finished(t: Txn) {
    t.state == Succeeded || t.state == Failed || t.state == Cancelled
  }

  predicate InSetup(t: Txn) {
    t.inUse && !Finished(t)
  }

  // The leg may be the one an unconfirmed dial created.
  predicate Tentative(txns: seq<Txn>, leg: ModelLeg) {
    exists i | 0 <= i < |txns| :: Claims(txns[i], leg)
  }

  predicate Claims(t: Txn, leg: ModelLeg) {
    InSetup(t) && t.kind == DialTxn && t.boundId == leg.id && t.boundGeneration == leg.generation && !t.dirConfirmed
  }

  predicate Dominates(t: Txn) {
    InSetup(t) && t.secondMo && (t.kind == AnswerTxn || (t.kind == DialTxn && t.dirConfirmed))
  }

  function FirstDominating(txns: seq<Txn>): Option<TxnKind> {
    if txns == [] then None else if Dominates(txns[0]) then Some(txns[0].kind) else FirstDominating(txns[1..])
  }

  predicate SetsUp(txns: seq<Txn>, kind: TxnKind) {
    exists i | 0 <= i < |txns| :: InSetup(txns[i]) && txns[i].kind == kind
  }

  // Being torn down, or suspected gone.
  predicate Transient(leg: ModelLeg) {
    leg.inUse && (leg.state == ReleasingLeg || leg.pendingRemoval)
  }

  predicate Stable(leg: ModelLeg) {
    leg.inUse && !Transient(leg)
  }

  predicate Rings(state: LegState) {
    state == WaitingLeg || state == IncomingLeg
  }

  // The leg holds this role itself, or keeps it from the last publication.
  predicate Genuine(txns: seq<Txn>, leg: ModelLeg, role: LegState) {
    Stable(leg) && leg.state == role && !(role == ActiveLeg && Tentative(txns, leg))
  }

  predicate Retained(leg: ModelLeg, role: LegState) {
    Transient(leg) && leg.role == role
  }

  function CountGenuine(txns: seq<Txn>, legs: seq<ModelLeg>, role: LegState): (n: nat)
    ensures n <= |legs|
  {
    if legs == [] then 0
    else
      var last := legs[|legs| - 1];
      CountGenuine(txns, legs[..|legs| - 1], role) + if Genuine(txns, last, role) then 1 else 0
  }

  function CountRetained(legs: seq<ModelLeg>, role: LegState): (n: nat)
    ensures n <= |legs|
  {
    if legs == [] then 0
    else
      var last := legs[|legs| - 1];
      CountRetained(legs[..|legs| - 1], role) + if Retained(last, role) then 1 else 0
  }

  // The id of the last leg that holds the role, and of the first that keeps it.
  function GenuineId(txns: seq<Txn>, legs: seq<ModelLeg>, role: LegState): u8 {
    if legs == [] then 0
    else
      var last := legs[|legs| - 1];
      if Genuine(txns, last, role) then last.id else GenuineId(txns, legs[..|legs| - 1], role)
  }

  function RetainedId(legs: seq<ModelLeg>, role: LegState): u8 {
    if legs == [] then 0
    else
      var init, last := legs[..|legs| - 1], legs[|legs| - 1];
      if CountRetained(init, role) == 0 && Retained(last, role) then last.id else RetainedId(init, role)
  }

  // Who has the role; a clash when more than one leg claims it.
  datatype Holder = Nobody | Holder(id: u8) | Clash

  function HolderOf(txns: seq<Txn>, legs: seq<ModelLeg>, role: LegState): Holder {
    var genuine, retained := CountGenuine(txns, legs, role), CountRetained(legs, role);
    if genuine > 1 || (genuine == 0 && retained > 1) then Clash
    else if genuine == 1 then Holder(GenuineId(txns, legs, role))
    else if retained == 1 then Holder(RetainedId(legs, role))
    else Nobody
  }

  predicate RingsIn(legs: seq<ModelLeg>) {
    exists i | 0 <= i < |legs| :: RingingLeg(legs[i])
  }

  predicate RingingLeg(leg: ModelLeg) {
    (Stable(leg) && Rings(leg.state)) || (Transient(leg) && Rings(leg.role))
  }

  predicate DialsIn(legs: seq<ModelLeg>) {
    exists i | 0 <= i < |legs| :: DialingIn(legs[i])
  }

  predicate DialingIn(leg: ModelLeg) {
    Stable(leg) && (leg.state == DialingLeg || leg.state == AlertingLeg)
  }

  predicate AnyTransient(legs: seq<ModelLeg>) {
    exists i | 0 <= i < |legs| :: Transient(legs[i])
  }

  // --- The row they map to ---

  // None when the last row stays published because a leg is still going.
  function RowFor(m: Model, active: Holder, held: Holder): Option<Row> {
    var base := Row(CallState.Idle, 0, false, false, false, false, m.published.lastResult, m.published.secondResult);
    var rings := RingsIn(m.legs);
    if active.Holder? || held.Holder? then
      var id := if active.Holder? then active.id else held.id;
      match FirstDominating(m.txns)
      case Some(kind) =>
        Some(base.(callState := if kind == AnswerTxn then Answering else Dialing, activeId := id))
      case None =>
        Some(base.(callState := CallState.Active, activeId := id,
                   onHold := held.Holder? && !active.Holder?, secondHeld := active.Holder? && held.Holder?,
                   waitingCall := rings || m.ringing, ring := rings || m.ringing))
    else if SetsUp(m.txns, AnswerTxn) then Some(base.(callState := Answering))
    else if m.ringing || rings then Some(base.(callState := Ringing, ring := true))
    else if SetsUp(m.txns, DialTxn) || DialsIn(m.legs) then Some(base.(callState := Dialing))
    else if AnyTransient(m.legs) then None
    else Some(base.(secondResult := NoResult))
  }

  function Published(m: Model): Option<Row> {
    var active, held := HolderOf(m.txns, m.legs, ActiveLeg), HolderOf(m.txns, m.legs, HeldLeg);
    if active == Clash || held == Clash then None else RowFor(m, active, held)
  }

  // The role a leg that is not going is published as.
  function RoleOf(txns: seq<Txn>, active: Holder, held: Holder, leg: ModelLeg): LegState {
    if active.Holder? && leg.id == active.id && leg.state == ActiveLeg && !Tentative(txns, leg) then ActiveLeg
    else if held.Holder? && leg.id == held.id && leg.state == HeldLeg then HeldLeg
    else if Rings(leg.state) then leg.state
    else if leg.state == DialingLeg || leg.state == AlertingLeg then DialingLeg
    else UnknownLeg
  }

  function WithRole(txns: seq<Txn>, active: Holder, held: Holder, leg: ModelLeg): ModelLeg {
    if Stable(leg) then leg.(role := RoleOf(txns, active, held, leg)) else leg
  }

  function WithRoles(txns: seq<Txn>, active: Holder, held: Holder, legs: seq<ModelLeg>): (r: seq<ModelLeg>)
    ensures |r| == |legs| && forall i | 0 <= i < |r| :: r[i] == WithRole(txns, active, held, legs[i])
  {
    seq(|legs|, i requires 0 <= i < |legs| => WithRole(txns, active, held, legs[i]))
  }

  function Project(m: Model): Model {
    var active, held := HolderOf(m.txns, m.legs, ActiveLeg), HolderOf(m.txns, m.legs, HeldLeg);
    match Published(m)
    case None => m
    case Some(row) => m.(legs := WithRoles(m.txns, active, held, m.legs), published := row)
  }

  // --- The projector in place ---

  method IsTentative(txns: seq<Txn>, leg: ModelLeg) returns (r: bool)
    ensures r == Tentative(txns, leg)
  {
    for i := 0 to |txns|
      invariant forall j | 0 <= j < i :: !Claims(txns[j], leg)
    {
      var t := txns[i];
      if !t.inUse || t.kind != DialTxn {
        continue;
      }
      if t.state == Succeeded || t.state == Failed || t.state == Cancelled {
        continue;
      }
      if t.boundId == leg.id && t.boundGeneration == leg.generation && !t.dirConfirmed {
        assert Claims(txns[i], leg);
        return true;
      }
    }
    r := false;
  }

  method FindNewCallSetup(txns: seq<Txn>) returns (r: Option<TxnKind>)
    ensures r == FirstDominating(txns)
  {
    for i := 0 to |txns|
      invariant FirstDominating(txns) == FirstDominating(txns[i..])
    {
      var t := txns[i];
      if !InSetup(t) || !t.secondMo {
        continue;
      }
      if t.kind == AnswerTxn {
        return Some(AnswerTxn);
      }
      if t.kind == DialTxn && t.dirConfirmed {
        return Some(DialTxn);
      }
    }
    r := None;
  }

  method FindSetup(txns: seq<Txn>, kind: TxnKind) returns (r: bool)
    ensures r == SetsUp(txns, kind)
  {
    for i := 0 to |txns|
      invariant forall j | 0 <= j < i :: !(InSetup(txns[j]) && txns[j].kind == kind)
    {
      if InSetup(txns[i]) && txns[i].kind == kind {
        return true;
      }
    }
    r := false;
  }

  // What the two passes over the legs count.
  datatype Tally = Tally(active: nat, activeId: u8, held: nat, heldId: u8, rings: bool, dials: bool)

  method FirstPass(txns: seq<Txn>, legs: seq<ModelLeg>) returns (t: Tally)
    ensures t.active == CountGenuine(txns, legs, ActiveLeg) && t.activeId == GenuineId(txns, legs, ActiveLeg)
    ensures t.held == CountGenuine(txns, legs, HeldLeg) && t.heldId == GenuineId(txns, legs, HeldLeg)
    ensures t.rings <==> exists i | 0 <= i < |legs| :: Stable(legs[i]) && Rings(legs[i].state)
    ensures t.dials <==> DialsIn(legs)
  {
    t := Tally(0, 0, 0, 0, false, false);
    assert legs[..0] == [];
    for i := 0 to |legs|
      invariant t.active == CountGenuine(txns, legs[..i], ActiveLeg)
      invariant t.activeId == GenuineId(txns, legs[..i], ActiveLeg)
      invariant t.held == CountGenuine(txns, legs[..i], HeldLeg) && t.heldId == GenuineId(txns, legs[..i], HeldLeg)
      invariant t.rings <==> exists j | 0 <= j < i :: Stable(legs[j]) && Rings(legs[j].state)
      invariant t.dials <==> exists j | 0 <= j < i :: DialingIn(legs[j])
    {
      var leg := legs[i];
      assert legs[..i + 1][..i] == legs[..i];
      var unsure := IsTentative(txns, leg);
      if !leg.inUse || leg.state == ReleasingLeg || leg.pendingRemoval {
        continue;
      }
      match leg.state
      case ActiveLeg =>
        if !unsure {
          t := t.(active := t.active + 1, activeId := leg.id);
        }
      case HeldLeg => t := t.(held := t.held + 1, heldId := leg.id);
      case WaitingLeg => t := t.(rings := true);
      case IncomingLeg => t := t.(rings := true);
      case DialingLeg => t := t.(dials := true);
      case AlertingLeg => t := t.(dials := true);
      case _ =>
    }
    assert legs[..|legs|] == legs;
  }

  function AtMostOne(n: nat): nat {
    if n == 0 then 0 else 1
  }

  // A leg that is going fills the role it keeps only when no leg holds it.
  method SecondPass(legs: seq<ModelLeg>, t: Tally)
    returns (u: Tally, keepsActive: nat, keepsHeld: nat, going: bool)
    requires t.active == 0 ==> t.activeId == 0
    requires t.held == 0 ==> t.heldId == 0
    ensures keepsActive == CountRetained(legs, ActiveLeg) && keepsHeld == CountRetained(legs, HeldLeg)
    ensures u.active == (if t.active > 0 then t.active else AtMostOne(keepsActive))
    ensures u.activeId == if t.active > 0 then t.activeId else RetainedId(legs, ActiveLeg)
    ensures u.held == (if t.held > 0 then t.held else AtMostOne(keepsHeld))
    ensures u.heldId == if t.held > 0 then t.heldId else RetainedId(legs, HeldLeg)
    ensures u.rings <==> t.rings || exists i | 0 <= i < |legs| :: Transient(legs[i]) && Rings(legs[i].role)
    ensures u.dials == t.dials && (going <==> AnyTransient(legs))
  {
    u, keepsActive, keepsHeld, going := t, 0, 0, false;
    assert legs[..0] == [];
    for i := 0 to |legs|
      invariant keepsActive == CountRetained(legs[..i], ActiveLeg) && keepsHeld == CountRetained(legs[..i], HeldLeg)
      invariant u.active == (if t.active > 0 then t.active else AtMostOne(keepsActive))
      invariant u.activeId == if t.active > 0 then t.activeId else RetainedId(legs[..i], ActiveLeg)
      invariant u.held == (if t.held > 0 then t.held else AtMostOne(keepsHeld))
      invariant u.heldId == if t.held > 0 then t.heldId else RetainedId(legs[..i], HeldLeg)
      invariant u.rings <==> t.rings || exists j | 0 <= j < i :: Transient(legs[j]) && Rings(legs[j].role)
      invariant u.dials == t.dials && (going <==> exists j | 0 <= j < i :: Transient(legs[j]))
    {
      var leg := legs[i];
      assert legs[..i + 1][..i] == legs[..i];
      if !leg.inUse || !(leg.state == ReleasingLeg || leg.pendingRemoval) {
        continue;
      }
      going := true;
      if leg.role == ActiveLeg {
        keepsActive := keepsActive + 1;
        if u.active == 0 {
          u := u.(active := 1, activeId := leg.id);
        }
      } else if leg.role == HeldLeg {
        keepsHeld := keepsHeld + 1;
        if u.held == 0 {
          u := u.(held := 1, heldId := leg.id);
        }
      } else if leg.role == WaitingLeg || leg.role == IncomingLeg {
        u := u.(rings := true);
      }
    }
    assert legs[..|legs|] == legs;
  }

  // Which single leg, if any, the counts leave for a role.
  lemma CountsHold(txns: seq<Txn>, legs: seq<ModelLeg>, role: LegState, count: nat, id: u8)
    requires var genuine := CountGenuine(txns, legs, role);
      && count == (if genuine > 0 then genuine else AtMostOne(CountRetained(legs, role)))
      && id == if genuine > 0 then GenuineId(txns, legs, role) else RetainedId(legs, role)
    ensures (HolderOf(txns, legs, role) == Clash) <==>
      count > 1 || (CountGenuine(txns, legs, role) == 0 && CountRetained(legs, role) > 1)
    ensures HolderOf(txns, legs, role) != Clash ==>
      HolderOf(txns, legs, role) == if count == 1 then Holder(id) else Nobody
  {}

  lemma {:induction false} NoneHasNoId(txns: seq<Txn>, legs: seq<ModelLeg>, role: LegState)
    ensures CountGenuine(txns, legs, role) == 0 ==> GenuineId(txns, legs, role) == 0
  {
    if legs != [] {
      NoneHasNoId(txns, legs[..|legs| - 1], role);
    }
  }

  class CallModel {
    const legs: array<ModelLeg>
    var txns: seq<Txn>
    var ringing: bool
    var published: Row
    var clashed: bool

    function State(): Model
      reads this, legs
    {
      Model(legs[..], txns, ringing, published)
    }

    constructor (slots: nat, idle: Row)
      ensures fresh(legs) && legs.Length == slots && published == idle && txns == [] && !ringing && !clashed
    {
      legs := new ModelLeg[slots](_ => ModelLeg(false, 0, 0, UnknownLeg, false, UnknownLeg));
      txns, ringing, published, clashed := [], false, idle, false;
    }

    // The row for these holders, or none while a leg is still going.
    method MapRow(active: Holder, held: Holder, t: Tally, going: bool) returns (row: Option<Row>)
      requires active != Clash && held != Clash
      requires t.rings == RingsIn(legs[..]) && t.dials == DialsIn(legs[..]) && going == AnyTransient(legs[..])
      ensures row == RowFor(State(), active, held)
    {
      var r := Row(CallState.Idle, 0, false, false, false, false, published.lastResult, published.secondResult);
      var newCall := FindNewCallSetup(txns);
      if active.Holder? || held.Holder? {
        r := r.(activeId := if active.Holder? then active.id else held.id);
        if newCall.Some? {
          return Some(r.(callState := if newCall.value == AnswerTxn then Answering else Dialing));
        }
        var waiting := t.rings || ringing;
        return Some(r.(callState := CallState.Active, onHold := held.Holder? && !active.Holder?,
                       secondHeld := active.Holder? && held.Holder?, waitingCall := waiting, ring := waiting));
      }
      var answering := FindSetup(txns, AnswerTxn);
      if answering {
        return Some(r.(callState := Answering));
      }
      if ringing || t.rings {
        return Some(r.(callState := Ringing, ring := true));
      }
      var dialling := FindSetup(txns, DialTxn);
      if dialling || t.dials {
        return Some(r.(callState := Dialing));
      }
      if going {
        return None;
      }
      row := Some(r.(secondResult := NoResult));
    }

    method PublishRoles(active: Holder, held: Holder)
      modifies legs
      ensures legs[..] == WithRoles(txns, active, held, old(legs[..]))
    {
      for i := 0 to legs.Length
        invariant forall j | 0 <= j < i :: legs[j] == WithRole(txns, active, held, old(legs[..])[j])
        invariant forall j | i <= j < legs.Length :: legs[j] == old(legs[..])[j]
      {
        var leg := legs[i];
        if !leg.inUse || leg.state == ReleasingLeg || leg.pendingRemoval {
          continue;
        }
        var unsure := IsTentative(txns, leg);
        var role := UnknownLeg;
        if active.Holder? && leg.id == active.id && leg.state == ActiveLeg && !unsure {
          role := ActiveLeg;
        } else if held.Holder? && leg.id == held.id && leg.state == HeldLeg {
          role := HeldLeg;
        } else if leg.state == WaitingLeg || leg.state == IncomingLeg {
          role := leg.state;
        } else if leg.state == DialingLeg || leg.state == AlertingLeg {
          role := DialingLeg;
        }
        legs[i] := leg.(role := role);
      }
    }

    method TallyLegs() returns (active: Holder, held: Holder, t: Tally, going: bool)
      ensures active == HolderOf(txns, legs[..], ActiveLeg) && held == HolderOf(txns, legs[..], HeldLeg)
      ensures t.rings == RingsIn(legs[..]) && t.dials == DialsIn(legs[..]) && going == AnyTransient(legs[..])
    {
      var table := legs[..];
      var first := FirstPass(txns, table);
      NoneHasNoId(txns, table, ActiveLeg);
      NoneHasNoId(txns, table, HeldLeg);
      var keepsActive, keepsHeld;
      t, keepsActive, keepsHeld, going := SecondPass(table, first);
      CountsHold(txns, table, ActiveLeg, t.active, t.activeId);
      CountsHold(txns, table, HeldLeg, t.held, t.heldId);
      active := if t.active > 1 || (first.active == 0 && keepsActive > 1) then Clash
                else if t.active == 1 then Holder(t.activeId) else Nobody;
      held := if t.held > 1 || (first.held == 0 && keepsHeld > 1) then Clash
              else if t.held == 1 then Holder(t.heldId) else Nobody;
      RingsByPass(table);
    }

    method ProjectCalls()
      modifies this`published, this`clashed, legs
      ensures State() == Project(old(State()))
      ensures clashed == (old(clashed) || HolderOf(txns, old(legs[..]), ActiveLeg) == Clash ||
                          HolderOf(txns, old(legs[..]), HeldLeg) == Clash)
    {
      var active, held, t, going := TallyLegs();
      if active == Clash || held == Clash {
        clashed := true;
        return;
      }
      var row := MapRow(active, held, t, going);
      if row.Some? {
        PublishRoles(active, held);
        published := row.value;
      }
    }
  }

  lemma RingsByPass(legs: seq<ModelLeg>)
    ensures RingsIn(legs) <==>
      (exists i | 0 <= i < |legs| :: Stable(legs[i]) && Rings(legs[i].state)) ||
      (exists i | 0 <= i < |legs| :: Transient(legs[i]) && Rings(legs[i].role))
  {
    if i :| 0 <= i < |legs| && Stable(legs[i]) && Rings(legs[i].state) {
      assert RingingLeg(legs[i]);
    } else if i :| 0 <= i < |legs| && Transient(legs[i]) && Rings(legs[i].role) {
      assert RingingLeg(legs[i]);
    }
  }
}
