// The two display slots refine the network: whatever swaps and releases happen
// to an established two-call session between polls, each poll shows who is left
// and settles exactly the legs that vanished.

module CallDisplay {
  import opened Timebase
  import opened CallTypes
  import opened CallStore
  import opened CallSession

  datatype Side = A | B

  function Other(x: Side): Side {
    if x == A then B else A
  }

  // The network's view of the two legs.
  datatype Net = Both(active: Side) | Sole(who: Side) | Nobody

  datatype NetEvent = SwapRoles | Release(who: Side)

  function Happen(net: Net, e: NetEvent): Net {
    match net
    case Both(w) => (match e case SwapRoles => Both(Other(w)) case Release(x) => Sole(Other(x)))
    case Sole(w) => if e == Release(w) then Nobody else net
    case Nobody => Nobody
  }

  function HappenAll(net: Net, es: seq<NetEvent>): Net
    decreases |es|
  {
    if es == [] then net else HappenAll(Happen(net, es[0]), es[1..])
  }

  function Alive(net: Net): set<Side> {
    match net
    case Both(_) => {A, B}
    case Sole(w) => {w}
    case Nobody => {}
  }

  lemma {:induction false} AliveShrinks(net: Net, es: seq<NetEvent>)
    ensures Alive(HappenAll(net, es)) <= Alive(net)
    decreases |es|
  {
    if es != [] {
      AliveShrinks(Happen(net, es[0]), es[1..]);
    }
  }

  // The two calls: their network ids and what the app knows of each.
  datatype Parties = Parties(idA: u8, idB: u8, legA: Leg, legB: Leg) {
    function Id(x: Side): u8 { if x == A then idA else idB }
    function LegOf(x: Side): Leg { if x == A then legA else legB }
    predicate Valid() { idA != 0 && idB != 0 && idA != idB }
  }

  // The flat status the model publishes for this network state. While a party is
  // left a third caller may be waiting; the app may or may not know of one yet.
  predicate Projects(p: Parties, net: Net, st: Status) {
    match net
    case Both(w) => st.callState == Active && st.activeId == p.Id(w) && st.secondHeld && !st.onHold
    case Sole(w) => st.callState == Active && st.activeId == p.Id(w) && !st.secondHeld
    case Nobody => st.callState == Idle && st.activeId == 0 && !st.secondHeld && !st.waitingCall
  }

  predicate VacantHeld(c: Slots) {
    !c.secondary && c.held.number == "" && c.held.name == "" && c.held.recordId == 0 && c.heldSeconds == 0
  }

  predicate LiveSession(s: Session) {
    s.phase == Live && s.resultArmed && s.route != IncomingCall
  }

  // The slots name exactly the parties that are left, in their network roles.
  predicate Names(c: Slots, p: Parties, net: Net) {
    match net
    case Both(w) => c.secondary && c.primary == p.LegOf(w) && c.held == p.LegOf(Other(w))
    case Sole(w) => c.primary == p.LegOf(w) && VacantHeld(c)
    case Nobody => c == BLANK_SLOTS
  }

  function Foreground(net: Net): Side
    requires net != Nobody
  {
    if net.Both? then net.active else net.who
  }

  predicate Shows(s: Session, p: Parties, net: Net) {
    && Names(s.slots, p, net)
    && if net == Nobody then s.phase == Setup
       else
         && LiveSession(s) && s.seen.state == Active
         && s.seen.activeId == p.Id(Foreground(net))
         && (net.Both? ==> s.seen.secondHeld)
  }

  // The legs that vanished, the one on display first.
  function Vanished(before: Net, after: Net): seq<Side> {
    match before
    case Both(w) => (match after case Both(_) => [] case Sole(x) => [Other(x)] case Nobody => [w, Other(w)])
    case Sole(w) => if after == Nobody then [w] else []
    case Nobody => []
  }

  // What a leg has run up when the poll at now finds it gone.
  function SecondsOf(c: Slots, net: Net, after: Net, x: Side, now: u32): u32 {
    match net
    case Both(w) =>
      if x == w then Elapsed(c.connectedMs, now)
      else if after == Nobody then Elapsed(BackDated(now, c.heldSeconds), now)
      else c.heldSeconds
    case _ => Elapsed(c.connectedMs, now)
  }

  // The store after settling these legs in this order.
  function SettleAll(st: Store, c: Slots, p: Parties, net: Net, after: Net, gone: seq<Side>, now: u32): Store
    decreases |gone|
  {
    if gone == [] then st
    else SettleAll(Settle(st, p.LegOf(gone[0]), SecondsOf(c, net, after, gone[0], now), NoReason),
                   c, p, net, after, gone[1..], now)
  }

  // --- The waiting overlay beside them ---

  // The poll on which a caller who stopped waiting takes the session over.
  predicate HandsOver(s: Session, inp: PollInput) {
    && !inp.status.waitingCall && s.waiting.pending
    && (WaitingSurvival(s.waiting, inp.snapshot) == StillRinging ||
        WaitingSurvival(s.waiting, inp.snapshot) == NowConnected)
  }

  // The store once a caller found gone has been logged missed.
  function Noted(st: Store, s: Session, inp: PollInput): Store {
    var w := s.waiting;
    if !inp.status.waitingCall && w.pending && !w.recorded && WaitingSurvival(w, inp.snapshot) == Gone
    then Register(st, Entry(Missed, w.number, w.name, w.caller)) else st
  }

  // What the overlay's stage does not touch.
  predicate SameCall(s: Session, r: Session) {
    && r.slots == s.slots && r.phase == s.phase && r.resultArmed == s.resultArmed && r.seen == s.seen
    && (r.route == IncomingCall ==> s.route == IncomingCall)
  }

  lemma WaitingKeepsCall(s: Session, inp: PollInput)
    requires s.phase == Live && !HandsOver(s, inp) && inp.status.callState != Ringing
    requires !inp.status.secondHeld || s.slots.secondary
    ensures var o := WaitingStage(s, inp);
      SameCall(s, o.s) && o.s.store == Noted(s.store, s, inp)
  {}

  // With a live connected call the stages after it add nothing.
  lemma ActiveConclude(s: Session, inp: PollInput, surface: bool, previous: CallState)
    requires LiveSession(s) && inp.status.callState == Active && !HandsOver(s, inp)
    requires !inp.status.secondHeld || s.slots.secondary
    ensures var r := Conclude(s, inp, surface, previous);
      SameCall(s, r) && r.store == Noted(s.store, s, inp)
  {
    WaitingKeepsCall(s, inp);
  }

  // With none, a call screen and no overlay settle and end the session.
  lemma IdleConclude(s: Session, inp: PollInput, surface: bool, previous: CallState)
    requires LiveSession(s) && inp.status.callState == Idle && !HandsOver(s, inp)
    requires !inp.status.secondHeld && !inp.status.waitingCall
    ensures var r := Conclude(s, inp, surface, previous);
      if surface && !s.waiting.pending && (previous == Active || previous == Answering || previous == Dialing) then
        && r.phase == Setup && r.slots == BLANK_SLOTS
        && r.store == FinalizeHeld(FinalizePrimary(s, inp.now, NoReason)).store
      else SameCall(s, r) && r.store == Noted(s.store, s, inp)
  {
    WaitingKeepsCall(s, inp);
  }

  // Before the stages that may end the poll, only ReconcileTwoCall moves the slots.
  lemma ReconcileSlots(s: Session, inp: PollInput, surface: bool)
    requires s.phase == Live
    ensures var st := inp.status;
      var t := ReconcileTwoCall(ShowHold(s, st), st, inp.now);
      var r := Reconcile(s, inp, surface);
      && r.slots == t.slots && r.store == t.store
      && r.seen == Seen(st.callState, st.lastResult, st.secondHeld, st.activeId)
      && r.phase == s.phase && r.resultArmed == s.resultArmed && r.waiting == s.waiting && r.route == s.route
  {}

  lemma SettleUnfolds(st: Store, c: Slots, p: Parties, net: Net, after: Net, x: Side, y: Side, now: u32)
    ensures SettleAll(st, c, p, net, after, [x], now) ==
      Settle(st, p.LegOf(x), SecondsOf(c, net, after, x, now), NoReason)
    ensures SettleAll(st, c, p, net, after, [x, y], now) ==
      Settle(Settle(st, p.LegOf(x), SecondsOf(c, net, after, x, now), NoReason),
             p.LegOf(y), SecondsOf(c, net, after, y, now), NoReason)
  {
    var st1 := Settle(st, p.LegOf(x), SecondsOf(c, net, after, x, now), NoReason);
    var st2 := Settle(st1, p.LegOf(y), SecondsOf(c, net, after, y, now), NoReason);
    assert [x][1..] == [] && [y][1..] == [] && [x, y][1..] == [y];
    assert SettleAll(st1, c, p, net, after, [y], now) == SettleAll(st2, c, p, net, after, [], now) == st2;
  }

  ghost predicate CanBecome(net: Net, after: Net) {
    Alive(after) <= Alive(net) && (after.Both? ==> net.Both?)
  }

  lemma HappenCanBecome(net: Net, es: seq<NetEvent>)
    ensures CanBecome(net, HappenAll(net, es))
  {
    AliveShrinks(net, es);
  }

  // Someone is left: the slots follow, and a vanished leg is settled.
  lemma TwoStay(s: Session, p: Parties, net: Net, after: Net, st: Status, now: u32)
    requires p.Valid() && Shows(s, p, net) && net.Both? && after.Both? && Projects(p, after, st)
    ensures var t := ReconcileTwoCall(ShowHold(s, st), st, now);
      && t.store == SettleAll(s.store, s.slots, p, net, after, Vanished(net, after), now)
      && Names(t.slots, p, after)
  {}

  lemma TwoBecomeOne(s: Session, p: Parties, net: Net, after: Net, st: Status, now: u32)
    requires p.Valid() && Shows(s, p, net) && net.Both? && after.Sole? && Projects(p, after, st)
    ensures var t := ReconcileTwoCall(ShowHold(s, st), st, now);
      && t.store == SettleAll(s.store, s.slots, p, net, after, Vanished(net, after), now)
      && Names(t.slots, p, after)
  {
    var x := Other(after.who);
    SettleUnfolds(s.store, s.slots, p, net, after, x, x, now);
    assert Vanished(net, after) == [x];
  }

  lemma TwoCallStep(s: Session, p: Parties, net: Net, after: Net, st: Status, now: u32)
    requires p.Valid() && Shows(s, p, net) && CanBecome(net, after) && after != Nobody
    requires Projects(p, after, st)
    ensures var t := ReconcileTwoCall(ShowHold(s, st), st, now);
      && t.store == SettleAll(s.store, s.slots, p, net, after, Vanished(net, after), now)
      && Names(t.slots, p, after)
  {
    if net.Both? && after.Both? {
      TwoStay(s, p, net, after, st, now);
    } else if net.Both? {
      TwoBecomeOne(s, p, net, after, st, now);
    }
  }

  // Nobody is left: what was on display goes first, what was held right after it.
  lemma LastStep(s: Session, p: Parties, net: Net, st: Status, now: u32)
    requires p.Valid() && Shows(s, p, net) && net != Nobody && Projects(p, Nobody, st)
    ensures var t := ReconcileTwoCall(ShowHold(s, st), st, now);
      FinalizeHeld(FinalizePrimary(t, now, NoReason)).store
         == SettleAll(s.store, s.slots, p, net, Nobody, Vanished(net, Nobody), now)
  {
    SettleUnfolds(s.store, s.slots, p, net, Nobody, A, B, now);
    SettleUnfolds(s.store, s.slots, p, net, Nobody, B, A, now);
  }

  // A poll that finds nobody left ends the session only here.
  predicate Closes(s: Session) {
    CallSurface(s.route) && !s.waiting.pending
  }

  // The legs that poll settles: all that vanished, or without closing only the one
  // on display when the other took its place.
  function SettledNow(s: Session, net: Net, after: Net): seq<Side> {
    if after != Nobody || Closes(s) then Vanished(net, after)
    else if net.Both? then [net.active]
    else []
  }

  lemma SomebodyLeft(s: Session, p: Parties, net: Net, after: Net, inp: PollInput)
    requires p.Valid() && Shows(s, p, net) && CanBecome(net, after) && after != Nobody
    requires Projects(p, after, inp.status) && !HandsOver(s, inp)
    ensures Shows(Poll(s, inp), p, after)
    ensures Poll(s, inp).store ==
      Noted(SettleAll(s.store, s.slots, p, net, after, Vanished(net, after), inp.now), s, inp)
  {
    var surface := CallSurface(s.route);
    ReconcileSlots(s, inp, surface);
    TwoCallStep(s, p, net, after, inp.status, inp.now);
    ActiveConclude(Reconcile(s, inp, surface), inp, surface, s.seen.state);
  }

  // What the last poll settles before the stages that may end the session.
  lemma ForegroundGone(s: Session, p: Parties, net: Net, st: Status, now: u32)
    requires p.Valid() && Shows(s, p, net) && net != Nobody && Projects(p, Nobody, st)
    ensures ReconcileTwoCall(ShowHold(s, st), st, now).store ==
      SettleAll(s.store, s.slots, p, net, Nobody, if net.Both? then [net.active] else [], now)
  {
    SettleUnfolds(s.store, s.slots, p, net, Nobody, A, A, now);
    SettleUnfolds(s.store, s.slots, p, net, Nobody, B, B, now);
  }

  lemma SameSettlement(r: Session, t: Session, now: u32)
    requires r.slots == t.slots && r.store == t.store
    ensures FinalizeHeld(FinalizePrimary(r, now, NoReason)).store ==
            FinalizeHeld(FinalizePrimary(t, now, NoReason)).store
  {}

  lemma NobodyLeft(s: Session, p: Parties, net: Net, inp: PollInput)
    requires p.Valid() && Shows(s, p, net) && net != Nobody
    requires Projects(p, Nobody, inp.status) && !HandsOver(s, inp)
    ensures Shows(Poll(s, inp), p, Nobody) <==> Closes(s)
    ensures Poll(s, inp).store ==
      Noted(SettleAll(s.store, s.slots, p, net, Nobody, SettledNow(s, net, Nobody), inp.now), s, inp)
  {
    var st, surface := inp.status, CallSurface(s.route);
    ReconcileSlots(s, inp, surface);
    var r, t := Reconcile(s, inp, surface), ReconcileTwoCall(ShowHold(s, st), st, inp.now);
    IdleConclude(r, inp, surface, s.seen.state);
    if Closes(s) {
      LastStep(s, p, net, st, inp.now);
      SameSettlement(r, t, inp.now);
    } else {
      ForegroundGone(s, p, net, st, inp.now);
    }
  }

  // The poll after any swaps and releases, whoever else is waiting, unless that caller
  // takes the session over: while a party is left the slots follow the network and
  // exactly the vanished legs are settled. A session whose last leg vanished is settled
  // and ended exactly when a call screen is up and no waiting caller is still to be
  // dealt with; otherwise at most the leg on display is.
  lemma PollRefinesNetwork(s: Session, p: Parties, net: Net, es: seq<NetEvent>, inp: PollInput)
    requires p.Valid() && Shows(s, p, net) && net != Nobody
    requires Projects(p, HappenAll(net, es), inp.status) && !HandsOver(s, inp)
    ensures var after := HappenAll(net, es);
      && (Shows(Poll(s, inp), p, after) <==> after != Nobody || Closes(s))
      && Poll(s, inp).store ==
           Noted(SettleAll(s.store, s.slots, p, net, after, SettledNow(s, net, after), inp.now), s, inp)
  {
    var after := HappenAll(net, es);
    HappenCanBecome(net, es);
    if after != Nobody {
      SomebodyLeft(s, p, net, after, inp);
    } else {
      NobodyLeft(s, p, net, inp);
    }
  }

  // The poll that finds the waiting caller answered makes a two-call session of a
  // sole one, with that caller on display and the other party held.
  lemma AnsweredIsShown(s: Session, p: Parties, who: Side, inp: PollInput)
    requires p.Valid() && Shows(s, p, Sole(who)) && s.waiting.pending
    requires var st := inp.status;
      && st.callState == Active && st.secondHeld && !st.waitingCall
      && st.activeId != 0 && st.activeId != p.Id(who)
    ensures var w := s.waiting;
      var answered := Leg(w.number, w.name, Received, if w.number == "" then 0 else inp.newRecordId);
      var q := Parties(inp.status.activeId, p.Id(who), answered, p.LegOf(who));
      q.Valid() && Shows(Poll(s, inp), q, Both(A)) && !Poll(s, inp).waiting.pending
  {
    var surface := CallSurface(s.route);
    ReconcileSlots(s, inp, surface);
    assert Poll(s, inp) == ResolveWaiting(Reconcile(s, inp, surface), inp);
  }

  // --- Whole runs ---

  // Between polls the network moves and the user may change the screen.
  datatype Round = Round(events: seq<NetEvent>, route: Route, inp: PollInput)

  function NetAfter(net: Net, rounds: seq<Round>): Net
    decreases |rounds|
  {
    if rounds == [] then net else NetAfter(HappenAll(net, rounds[0].events), rounds[1..])
  }

  function PollRound(s: Session, r: Round): Session {
    Poll(s.(route := r.route), r.inp)
  }

  function RunPolls(s: Session, rounds: seq<Round>): Session
    decreases |rounds|
  {
    if rounds == [] then s
    else RunPolls(PollRound(s, rounds[0]), rounds[1..])
  }

  // Each poll reports the network as it then is and hands the session to no other
  // caller; the last leg vanishes where the poll closes the session.
  predicate Faithful(s: Session, p: Parties, net: Net, rounds: seq<Round>)
    decreases |rounds|
  {
    rounds == [] ||
    var r := rounds[0];
    var after := HappenAll(net, r.events);
    && net != Nobody
    && Projects(p, after, r.inp.status) && !HandsOver(s, r.inp)
    && r.route != IncomingCall
    && (after == Nobody ==> Closes(s.(route := r.route)))
    && Faithful(PollRound(s, r), p, after, rounds[1..])
  }

  // The legs that vanish in the course of the run, in the order they are settled.
  function GoneInRun(net: Net, rounds: seq<Round>): seq<Side>
    decreases |rounds|
  {
    if rounds == [] then []
    else
      var after := HappenAll(net, rounds[0].events);
      Vanished(net, after) + GoneInRun(after, rounds[1..])
  }

  // The register entries these legs have, if any.
  function Entries(p: Parties, gone: seq<Side>): seq<(CallList, u32)>
    decreases |gone|
  {
    if gone == [] then []
    else (if p.LegOf(gone[0]).recordId == 0 then []
          else [(p.LegOf(gone[0]).list, p.LegOf(gone[0]).recordId)]) + Entries(p, gone[1..])
  }

  function ClosedEntries(st: Store): seq<(CallList, u32)> {
    seq(|st.closings|, i requires 0 <= i < |st.closings| => (st.closings[i].list, st.closings[i].id))
  }

  lemma {:induction false} SettleAllCloses(st: Store, c: Slots, p: Parties, net: Net, after: Net,
                                           gone: seq<Side>, now: u32)
    ensures ClosedEntries(SettleAll(st, c, p, net, after, gone, now)) == ClosedEntries(st) + Entries(p, gone)
    decreases |gone|
  {
    if gone != [] {
      var seconds := SecondsOf(c, net, after, gone[0], now);
      var one := Settle(st, p.LegOf(gone[0]), seconds, NoReason);
      SettleAllCloses(one, c, p, net, after, gone[1..], now);
      assert ClosedEntries(one) == ClosedEntries(st) + Entries(p, [gone[0]]) by {
        assert Entries(p, [gone[0]][1..]) == [];
      }
    }
  }

  lemma {:induction false} EntriesConcat(p: Parties, x: seq<Side>, y: seq<Side>)
    ensures Entries(p, x + y) == Entries(p, x) + Entries(p, y)
    decreases |x|
  {
    if x == [] {
      assert x + y == y;
    } else {
      EntriesConcat(p, x[1..], y);
      assert (x + y)[1..] == x[1..] + y;
    }
  }

  // A leg vanishes at most once, and those that vanish are exactly those no longer alive.
  lemma {:induction false} GoneOnce(net: Net, rounds: seq<Round>)
    ensures var gone := GoneInRun(net, rounds);
      && (forall i, j | 0 <= i < j < |gone| :: gone[i] != gone[j])
      && (forall x :: x in gone <==> x in Alive(net) && x !in Alive(NetAfter(net, rounds)))
      && Alive(NetAfter(net, rounds)) <= Alive(net)
    decreases |rounds|
  {
    if rounds != [] {
      var after := HappenAll(net, rounds[0].events);
      HappenCanBecome(net, rounds[0].events);
      GoneOnce(after, rounds[1..]);
      assert forall x :: x in Vanished(net, after) <==> x in Alive(net) && x !in Alive(after);
    }
  }

  lemma Regroup<T>(x: seq<T>, y: seq<T>, z: seq<T>)
    ensures (x + y) + z == x + (y + z)
  {}

  lemma NotedCloses(st: Store, s: Session, inp: PollInput)
    ensures ClosedEntries(Noted(st, s, inp)) == ClosedEntries(st)
  {}

  lemma RoundRefinesNetwork(s: Session, p: Parties, net: Net, r: Round)
    requires p.Valid() && Shows(s, p, net) && net != Nobody && r.route != IncomingCall
    requires var after := HappenAll(net, r.events);
      && Projects(p, after, r.inp.status) && !HandsOver(s, r.inp)
      && (after == Nobody ==> Closes(s.(route := r.route)))
    ensures var after, t := HappenAll(net, r.events), PollRound(s, r);
      && Shows(t, p, after)
      && ClosedEntries(t.store) == ClosedEntries(s.store) + Entries(p, Vanished(net, after))
  {
    var after, s0 := HappenAll(net, r.events), s.(route := r.route);
    PollRefinesNetwork(s0, p, net, r.events, r.inp);
    SettleAllCloses(s0.store, s0.slots, p, net, after, Vanished(net, after), r.inp.now);
    NotedCloses(SettleAll(s0.store, s0.slots, p, net, after, Vanished(net, after), r.inp.now), s0, r.inp);
  }

  lemma {:induction false} RunFollows(s: Session, p: Parties, net: Net, rounds: seq<Round>)
    requires p.Valid() && Shows(s, p, net) && Faithful(s, p, net, rounds)
    ensures Shows(RunPolls(s, rounds), p, NetAfter(net, rounds))
    ensures ClosedEntries(RunPolls(s, rounds).store)
         == ClosedEntries(s.store) + Entries(p, GoneInRun(net, rounds))
    decreases |rounds|
  {
    if rounds != [] {
      var r, rest := rounds[0], rounds[1..];
      var after := HappenAll(net, r.events);
      RoundRefinesNetwork(s, p, net, r);
      RunFollows(PollRound(s, r), p, after, rest);
      EntriesConcat(p, Vanished(net, after), GoneInRun(after, rest));
      Regroup(ClosedEntries(s.store), Entries(p, Vanished(net, after)), Entries(p, GoneInRun(after, rest)));
    }
  }

  // Over any run, whoever waits or gives up waiting meanwhile, the slots end up naming
  // exactly the survivors, and the entries closed are those of exactly the legs that
  // are no longer there, each once.
  lemma RunRefinesNetwork(s: Session, p: Parties, net: Net, rounds: seq<Round>)
    requires p.Valid() && Shows(s, p, net) && Faithful(s, p, net, rounds)
    ensures Shows(RunPolls(s, rounds), p, NetAfter(net, rounds))
    ensures var gone := GoneInRun(net, rounds);
      && ClosedEntries(RunPolls(s, rounds).store) == ClosedEntries(s.store) + Entries(p, gone)
      && (forall i, j | 0 <= i < j < |gone| :: gone[i] != gone[j])
      && (forall x :: x in gone <==> x in Alive(net) && x !in Alive(NetAfter(net, rounds)))
  {
    RunFollows(s, p, net, rounds);
    GoneOnce(net, rounds);
  }

  // --- A session whose end went unnoticed ---

  predicate Leftover(s: Session) {
    LiveSession(s) && s.seen.state == Idle && !s.seen.secondHeld
  }

  predicate IdleRound(s: Session, r: Round) {
    && r.route != IncomingCall && r.inp.status.callState == Idle
    && !r.inp.status.waitingCall && !r.inp.status.secondHeld && !HandsOver(s, r.inp)
  }

  predicate IdleRounds(s: Session, rounds: seq<Round>)
    decreases |rounds|
  {
    rounds == [] || (IdleRound(s, rounds[0]) && IdleRounds(PollRound(s, rounds[0]), rounds[1..]))
  }

  // The call itself, apart from its "On hold" mark, and all that was charged or closed.
  predicate CallUntouched(s: Session, r: Session) {
    r.slots.(onHold := s.slots.onHold) == s.slots && SameAccounts(s.store, r.store)
  }

  lemma IdleRoundKeeps(s: Session, r: Round)
    requires Leftover(s) && IdleRound(s, r)
    ensures Leftover(PollRound(s, r)) && CallUntouched(s, PollRound(s, r))
  {
    var s0 := s.(route := r.route);
    var surface := CallSurface(s0.route);
    ReconcileSlots(s0, r.inp, surface);
    IdleConclude(Reconcile(s0, r.inp, surface), r.inp, surface, s0.seen.state);
  }

  // Once the app has seen the modem idle without ending the session, no number of
  // idle polls on any screens charges or closes anything of it.
  lemma {:induction false} IdlePollsNeverSettle(s: Session, rounds: seq<Round>)
    requires Leftover(s) && IdleRounds(s, rounds)
    ensures Leftover(RunPolls(s, rounds)) && CallUntouched(s, RunPolls(s, rounds))
    decreases |rounds|
  {
    if rounds != [] {
      IdleRoundKeeps(s, rounds[0]);
      IdlePollsNeverSettle(PollRound(s, rounds[0]), rounds[1..]);
    }
  }

  lemma EndOfLive(s: Session, now: u32, newId: RecordId)
    requires s.phase == Live
    ensures EndCall(s, now, newId, true).store ==
      Settle(Settle(s.store, s.slots.primary, Elapsed(s.slots.connectedMs, now), NoReason),
             s.slots.held, s.slots.heldSeconds, NoReason)
  {}

  predicate SameAccounts(st: Store, r: Store) {
    r.totals == st.totals && r.ledger == st.ledger && r.closings == st.closings
  }

  lemma SettleSame(st: Store, r: Store, leg: Leg, seconds: u32)
    requires SameAccounts(st, r)
    ensures SameAccounts(Settle(st, leg, seconds, NoReason), Settle(r, leg, seconds, NoReason))
  {}

  // The end key does, and charges the leg for all the time up to the key.
  lemma EndKeySettlesLeftover(s: Session, rounds: seq<Round>, now: u32, newId: RecordId)
    requires Leftover(s) && IdleRounds(s, rounds)
    ensures var c := s.slots;
      SameAccounts(Settle(Settle(s.store, c.primary, Elapsed(c.connectedMs, now), NoReason),
                          c.held, c.heldSeconds, NoReason),
                   EndCall(RunPolls(s, rounds), now, newId, true).store)
  {
    var r, c := RunPolls(s, rounds), s.slots;
    IdlePollsNeverSettle(s, rounds);
    EndOfLive(r, now, newId);
    SettleSame(s.store, r.store, c.primary, Elapsed(c.connectedMs, now));
    SettleSame(Settle(s.store, c.primary, Elapsed(c.connectedMs, now), NoReason),
               Settle(r.store, c.primary, Elapsed(c.connectedMs, now), NoReason), c.held, c.heldSeconds);
  }
}
