// Duration conservation: over any sequence of role changes each leg is charged
// once, with the whole seconds of the intervals it spent in the primary slot,
// short by at most one second per stamp that hit the reserved 0.

module CallDuration {
  import opened Wrappers
  import opened Timebase
  import opened CallTypes
  import opened CallStore
  import opened CallSession

  // Whole seconds of a leg's finished primary intervals, and how many of the
  // stamps that started them hit 0.
  datatype Clock = Clock(whole: nat, misses: nat)

  // The interval in progress: begun at this instant with this many seconds shown.
  datatype Running = Running(since: int, shown: u32, clock: Clock)

  datatype Settled = Settled(list: CallList, charged: u32, due: Clock)

  // The true record kept beside a session, on a clock that never wraps.
  datatype Books = Books(primary: Option<Running>, held: Clock, settled: seq<Settled>)

  const ZERO := Clock(0, 0)

  predicate Within(seconds: u32, c: Clock) {
    c.whole - c.misses <= seconds <= c.whole
  }

  // 1 when backing this interval's start by the seconds shown lands on 0.
  function Hit(r: Running): nat {
    if Sub32(Wrap(r.since), Wrap(r.shown * 1000)) == 0 then 1 else 0
  }

  function StoppedAt(r: Running, t: int): Clock
    requires r.since <= t
  {
    Clock(r.clock.whole + (t - r.since) / 1000, r.clock.misses + Hit(r))
  }

  predicate Consistent(r: Running, connectedMs: u32, t: int) {
    && r.since <= t
    && connectedMs == BackDated(Wrap(r.since), r.shown)
    && Within(r.shown, r.clock) && r.shown * 1000 < HALF
  }

  // The leg has run for less than 2^31 ms.
  predicate Fits(b: Books, t: int) {
    b.primary.Some? ==> b.primary.value.shown * 1000 + t - b.primary.value.since < HALF
  }

  // What the timer reads against what the leg is due.
  lemma TimerReading(r: Running, connectedMs: u32, t: int)
    requires Consistent(r, connectedMs, t) && r.shown * 1000 + t - r.since < HALF
    ensures Within(Elapsed(connectedMs, Wrap(t)), StoppedAt(r, t))
  {
    var start := r.since - r.shown * 1000;
    SubWrap(r.since, r.shown * 1000);
    assert Sub32(Wrap(r.since), Wrap(r.shown * 1000)) == Wrap(start);
    TimeDiffExact(t, start);
    WholeSeconds(r.shown, t - r.since);
    if Wrap(start) == 0 && t > start {
      assert Wrap(start + 1) == 1 by { WrapShift(1, start / WORD); }
      TimeDiffExact(t, start + 1);
    } else if Wrap(start) == 0 {
      assert TimeDiff(Wrap(t), 1) <= 0 by { TimeDiffExact(t, start + 1); WrapShift(1, start / WORD); }
    }
  }

  // Seconds already shown add up with whole seconds since.
  lemma WholeSeconds(shown: nat, ms: nat)
    ensures (shown * 1000 + ms) / 1000 == shown + ms / 1000
    ensures shown * 1000 + ms > 0 ==> shown + ms / 1000 - 1 <= (shown * 1000 + ms - 1) / 1000 <= shown + ms / 1000
  {}

  // --- The role changes ---

  datatype Op =
    | ConnectOp
    | SwapOp
    | PromoteOp(reason: Reason)
    | AnswerWaitingOp(newId: RecordId)
    | DialSecondOp(d: DialInput)
    | DropHeldOp
    | OriginalReleasedOp(st: Status)
    | EndOp(newId: RecordId)
    | ClearTimersOp

  // When the app performs each.
  predicate Enabled(s: Session, op: Op, t: int) {
    match op
    case ConnectOp => s.slots.connectedMs == 0
    case SwapOp => s.slots.secondary
    case PromoteOp(_) => s.slots.secondary
    case AnswerWaitingOp(_) => !s.slots.secondary && s.waiting.pending
    case DialSecondOp(d) => !s.slots.secondary && d.now == Wrap(t)
    case DropHeldOp => s.slots.secondary
    case OriginalReleasedOp(st) =>
      && s.phase == Setup && s.slots.secondary && s.setup.newActiveRef != 0
      && st.callState == Dialing && st.activeId == 0
    case EndOp(_) => true
    case ClearTimersOp => true
  }

  function Perform(s: Session, op: Op, t: int): Session {
    var now := Wrap(t);
    match op
    case ConnectOp => Connect(s, now)
    case SwapOp => SwapSlots(s, now)
    case PromoteOp(reason) => PromoteHeld(s, now, reason)
    case AnswerWaitingOp(newId) => EstablishTwoCall(s, now, newId)
    case DialSecondOp(d) => DialSecond(s, d)
    case DropHeldOp => DropHeld(s)
    case OriginalReleasedOp(st) => OriginalReleased(s, st, now, true)
    case EndOp(newId) => EndCall(s, now, newId, true)
    case ClearTimersOp => s.(store := ClearTimers(s.store))
  }

  function PrimaryDue(b: Books, t: int): Clock
    requires b.primary.Some? ==> b.primary.value.since <= t
  {
    if b.primary.None? then ZERO else StoppedAt(b.primary.value, t)
  }

  function SettledPrimary(b: Books, c: Slots, t: int): Settled
    requires b.primary.Some? ==> b.primary.value.since <= t
  {
    Settled(c.primary.list, Elapsed(c.connectedMs, Wrap(t)), PrimaryDue(b, t))
  }

  // The seconds a held party gains while the second call is being dialled.
  function DialledSeconds(s: Session, t: int): nat {
    var ms := TimeDiff(Wrap(t), s.setup.startedMs);
    if ms > 0 then ms / 1000 else 0
  }

  // The held leg settled with these seconds against what it was due.
  function SettledHeld(b: Books, c: Slots, seconds: u32, due: Clock): Books {
    b.(held := ZERO, settled := b.settled + [Settled(c.held.list, seconds, due)])
  }

  // The seconds and the due of a held party that waited while the second was dialled.
  function AgedSeconds(s: Session, t: int): u32 {
    Wrap(s.slots.heldSeconds + DialledSeconds(s, t))
  }

  function AgedDue(b: Books, s: Session, t: int): Clock {
    Clock(b.held.whole + DialledSeconds(s, t), b.held.misses)
  }

  function Account(b: Books, s: Session, op: Op, t: int): Books
    requires b.primary.Some? ==> b.primary.value.since <= t
  {
    var c := s.slots;
    match op
    case ConnectOp => b.(primary := Some(Running(t, 0, ZERO)))
    case SwapOp => b.(primary := Some(Running(t, c.heldSeconds, b.held)), held := PrimaryDue(b, t))
    case PromoteOp(_) =>
      Books(Some(Running(t, c.heldSeconds, b.held)), ZERO, b.settled + [SettledPrimary(b, c, t)])
    case AnswerWaitingOp(_) => b.(primary := Some(Running(t, 0, ZERO)), held := PrimaryDue(b, t))
    case DialSecondOp(d) =>
      if DialRefused(d) then b else b.(primary := None, held := PrimaryDue(b, t))
    case DropHeldOp => SettledHeld(b, c, c.heldSeconds, b.held)
    case OriginalReleasedOp(_) => SettledHeld(b, c, AgedSeconds(s, t), AgedDue(b, s, t))
    case EndOp(_) =>
      var ended := b.settled + [SettledPrimary(b, c, t)];
      Books(None, ZERO,
            if c.secondary then ended + [Settled(c.held.list, c.heldSeconds, b.held)] else ended)
    case ClearTimersOp => b.(settled := [])
  }

  // The charges since the last clear, newest last.
  function SinceClear(ledger: seq<LedgerItem>): seq<LedgerItem> {
    if ledger == [] then []
    else
      var last := ledger[|ledger| - 1];
      if last == Cleared then [] else SinceClear(ledger[..|ledger| - 1]) + [last]
  }

  // A leg that ran up no whole second leaves no charge.
  function ChargesOf(settled: seq<Settled>): seq<LedgerItem> {
    if settled == [] then []
    else
      var e := settled[|settled| - 1];
      ChargesOf(settled[..|settled| - 1]) + if e.charged == 0 then [] else [Charge(e.list, e.charged)]
  }

  predicate Balanced(c: Slots, st: Store, b: Books, t: int) {
    && (b.primary.None? ==> c.connectedMs == 0)
    && (b.primary.Some? ==> Consistent(b.primary.value, c.connectedMs, t))
    && Within(c.heldSeconds, b.held) && c.heldSeconds * 1000 < HALF
    && (!c.secondary ==> c.heldSeconds == 0 && b.held == ZERO)
    && (forall e | e in b.settled :: Within(e.charged, e.due))
    && TotalsMatch(st)
    && SinceClear(st.ledger) == ChargesOf(b.settled)
  }

  predicate Conserved(s: Session, b: Books, t: int) {
    Balanced(s.slots, s.store, b, t)
  }

  lemma SettleCharges(st: Store, settled: seq<Settled>, leg: Leg, e: Settled, reason: Reason)
    requires SinceClear(st.ledger) == ChargesOf(settled) && e.list == leg.list
    ensures SinceClear(Settle(st, leg, e.charged, reason).ledger) == ChargesOf(settled + [e])
  {
    assert (settled + [e])[..|settled|] == settled;
    var item := Charge(leg.list, e.charged);
    assert (st.ledger + [item])[..|st.ledger|] == st.ledger;
  }

  lemma FreshStamp(now: u32)
    ensures BackDated(now, 0) == ArmStamp(now)
  {}

  // What keeps Conserved when the primary interval stops: the reading is within its due.
  lemma PrimaryReading(s: Session, b: Books, t: int)
    requires Conserved(s, b, t) && Fits(b, t)
    ensures Within(Elapsed(s.slots.connectedMs, Wrap(t)), PrimaryDue(b, t))
  {
    if b.primary.Some? {
      TimerReading(b.primary.value, s.slots.connectedMs, t);
    }
  }

  lemma MovesConserve(s: Session, b: Books, op: Op, t: int)
    requires Conserved(s, b, t) && Fits(b, t) && Enabled(s, op, t)
    requires op.ConnectOp? || op.SwapOp? || op.AnswerWaitingOp? || op.DialSecondOp?
    ensures Conserved(Perform(s, op, t), Account(b, s, op, t), t)
  {
    PrimaryReading(s, b, t);
    FreshStamp(Wrap(t));
    assert Perform(s, op, t).store.ledger == s.store.ledger;
  }

  lemma PromoteConserves(s: Session, b: Books, reason: Reason, t: int)
    requires Conserved(s, b, t) && Fits(b, t) && s.slots.secondary
    ensures var op := PromoteOp(reason);
      Conserved(Perform(s, op, t), Account(b, s, op, t), t)
  {
    PrimaryReading(s, b, t);
    SettleCharges(s.store, b.settled, s.slots.primary, SettledPrimary(b, s.slots, t), reason);
  }

  lemma DropBalances(c: Slots, st: Store, b: Books, seconds: u32, due: Clock, t: int)
    requires Balanced(c, st, b, t) && Within(seconds, due)
    ensures Balanced(HeldDropped(c), Settle(st, c.held, seconds, NoReason),
                     SettledHeld(b, c, seconds, due), t)
  {
    SettleCharges(st, b.settled, c.held, Settled(c.held.list, seconds, due), NoReason);
  }

  lemma OriginalReleasedSettles(s: Session, b: Books, st: Status, t: int)
    requires Enabled(s, OriginalReleasedOp(st), t)
    requires s.slots.heldSeconds * 1000 < HALF && Within(s.slots.heldSeconds, b.held)
    ensures var r := OriginalReleased(s, st, Wrap(t), true);
      && r.slots == HeldDropped(s.slots)
      && r.store == Settle(s.store, s.slots.held, AgedSeconds(s, t), NoReason)
    ensures Within(AgedSeconds(s, t), AgedDue(b, s, t))
  {}

  lemma OriginalReleasedConserves(s: Session, b: Books, st: Status, t: int)
    requires Conserved(s, b, t) && Enabled(s, OriginalReleasedOp(st), t)
    ensures var op := OriginalReleasedOp(st);
      Conserved(Perform(s, op, t), Account(b, s, op, t), t)
  {
    OriginalReleasedSettles(s, b, st, t);
    DropBalances(s.slots, s.store, b, AgedSeconds(s, t), AgedDue(b, s, t), t);
  }

  lemma EndCallSettles(s: Session, now: u32, newId: RecordId)
    ensures var r := EndCall(s, now, newId, true);
      var c := s.slots;
      && r.slots == BLANK_SLOTS
      && r.store == Settle(Settle(s.store, c.primary, Elapsed(c.connectedMs, now), EndReason(s, true)),
                           c.held, c.heldSeconds, NoReason)
  {}

  lemma EndLedger(st: Store, settled: seq<Settled>, c: Slots, first: Settled, second: Settled, reason: Reason)
    requires SinceClear(st.ledger) == ChargesOf(settled)
    requires first.list == c.primary.list && second.list == c.held.list
    requires !c.secondary ==> second.charged == 0
    ensures var st2 := Settle(Settle(st, c.primary, first.charged, reason), c.held, second.charged, NoReason);
      var ended := settled + [first];
      SinceClear(st2.ledger) == ChargesOf(if c.secondary then ended + [second] else ended)
  {
    SettleCharges(st, settled, c.primary, first, reason);
    if c.secondary {
      SettleCharges(Settle(st, c.primary, first.charged, reason), settled + [first], c.held, second, NoReason);
    }
  }

  lemma EndBalances(c: Slots, st: Store, b: Books, reason: Reason, t: int)
    requires Balanced(c, st, b, t) && Fits(b, t)
    requires Within(Elapsed(c.connectedMs, Wrap(t)), PrimaryDue(b, t))
    ensures var first := SettledPrimary(b, c, t);
      var second := Settled(c.held.list, c.heldSeconds, b.held);
      var ended := b.settled + [first];
      Balanced(BLANK_SLOTS,
               Settle(Settle(st, c.primary, first.charged, reason), c.held, c.heldSeconds, NoReason),
               Books(None, ZERO, if c.secondary then ended + [second] else ended), t)
  {
    EndLedger(st, b.settled, c, SettledPrimary(b, c, t),
              Settled(c.held.list, c.heldSeconds, b.held), reason);
  }

  lemma EndAccount(s: Session, b: Books, newId: RecordId, t: int)
    requires b.primary.Some? ==> b.primary.value.since <= t
    ensures var ended := b.settled + [SettledPrimary(b, s.slots, t)];
      var second := Settled(s.slots.held.list, s.slots.heldSeconds, b.held);
      Account(b, s, EndOp(newId), t) ==
        Books(None, ZERO, if s.slots.secondary then ended + [second] else ended)
  {}

  lemma EndConserves(s: Session, b: Books, newId: RecordId, t: int)
    requires Conserved(s, b, t) && Fits(b, t)
    ensures var op := EndOp(newId);
      Conserved(Perform(s, op, t), Account(b, s, op, t), t)
  {
    EndCallSettles(s, Wrap(t), newId);
    EndedConserves(s, b, newId, t, Perform(s, EndOp(newId), t));
  }

  lemma EndedConserves(s: Session, b: Books, newId: RecordId, t: int, r: Session)
    requires Conserved(s, b, t) && Fits(b, t) && r.slots == BLANK_SLOTS
    requires var c := s.slots;
      r.store == Settle(Settle(s.store, c.primary, Elapsed(c.connectedMs, Wrap(t)), EndReason(s, true)),
                        c.held, c.heldSeconds, NoReason)
    ensures Conserved(r, Account(b, s, EndOp(newId), t), t)
  {
    PrimaryReading(s, b, t);
    EndBalances(s.slots, s.store, b, EndReason(s, true), t);
    EndAccount(s, b, newId, t);
  }

  lemma StepConserves(s: Session, b: Books, op: Op, t: int)
    requires Conserved(s, b, t) && Fits(b, t) && Enabled(s, op, t)
    ensures Conserved(Perform(s, op, t), Account(b, s, op, t), t)
  {
    match op
    case PromoteOp(reason) => PromoteConserves(s, b, reason, t);
    case DropHeldOp => DropBalances(s.slots, s.store, b, s.slots.heldSeconds, b.held, t);
    case OriginalReleasedOp(st) => OriginalReleasedConserves(s, b, st, t);
    case EndOp(newId) => EndConserves(s, b, newId, t);
    case ClearTimersOp =>
      assert (s.store.ledger + [Cleared])[|s.store.ledger|] == Cleared;
    case _ => MovesConserve(s, b, op, t);
  }

  // A session with no call and nothing yet charged is conserved.
  lemma FreshConserved(s: Session, t: int)
    requires s.slots == BLANK_SLOTS && s.store.ledger == [] && s.store.totals == Totals(0, 0, 0, 0)
    ensures Conserved(s, Books(None, ZERO, []), t)
  {}

  // --- Whole runs ---

  datatype Moment = Moment(op: Op, t: int)

  function RunOps(s: Session, ops: seq<Moment>): Session
    decreases |ops|
  {
    if ops == [] then s else RunOps(Perform(s, ops[0].op, ops[0].t), ops[1..])
  }

  // Every operation is one the app would perform, time never goes back, and no
  // leg reaches 2^31 ms.
  predicate Orderly(s: Session, b: Books, t: int, ops: seq<Moment>)
    requires b.primary.Some? ==> b.primary.value.since <= t
    decreases |ops|
  {
    ops == [] ||
    var m := ops[0];
    && t <= m.t && Fits(b, m.t) && Enabled(s, m.op, m.t)
    && Orderly(Perform(s, m.op, m.t), Account(b, s, m.op, m.t), m.t, ops[1..])
  }

  function RunBooks(s: Session, b: Books, t: int, ops: seq<Moment>): Books
    requires b.primary.Some? ==> b.primary.value.since <= t
    requires Orderly(s, b, t, ops)
    decreases |ops|
  {
    if ops == [] then b
    else RunBooks(Perform(s, ops[0].op, ops[0].t), Account(b, s, ops[0].op, ops[0].t), ops[0].t, ops[1..])
  }

  function EndTime(t: int, ops: seq<Moment>): int {
    if ops == [] then t else ops[|ops| - 1].t
  }

  function DueSeconds(settled: seq<Settled>, which: Option<CallList>): nat {
    if settled == [] then 0
    else
      var e := settled[|settled| - 1];
      DueSeconds(settled[..|settled| - 1], which) +
        if which == None || which == Some(e.list) then e.due.whole else 0
  }

  function MissedSeconds(settled: seq<Settled>, which: Option<CallList>): nat {
    if settled == [] then 0
    else
      var e := settled[|settled| - 1];
      MissedSeconds(settled[..|settled| - 1], which) +
        if which == None || which == Some(e.list) then e.due.misses else 0
  }

  lemma {:induction false} ChargedSinceClear(ledger: seq<LedgerItem>, which: Option<CallList>)
    ensures Charged(ledger, which) == Charged(SinceClear(ledger), which)
  {
    if ledger != [] && ledger[|ledger| - 1] != Cleared {
      var prefix, last := ledger[..|ledger| - 1], ledger[|ledger| - 1];
      ChargedSinceClear(prefix, which);
      ChargedStep(SinceClear(prefix), last, which);
    }
  }

  lemma {:induction false} ChargesBound(settled: seq<Settled>, which: Option<CallList>)
    requires forall e | e in settled :: Within(e.charged, e.due)
    ensures var n := Charged(ChargesOf(settled), which);
      DueSeconds(settled, which) - MissedSeconds(settled, which) <= n <= DueSeconds(settled, which)
  {
    if settled != [] {
      var prefix, e := settled[..|settled| - 1], settled[|settled| - 1];
      ChargesBound(prefix, which);
      ChargedStep(ChargesOf(prefix), Charge(e.list, e.charged), which);
      assert ChargesOf(prefix) + [] == ChargesOf(prefix);
    }
  }

  lemma {:induction false} RunConserves(s: Session, b: Books, t: int, ops: seq<Moment>)
    requires Conserved(s, b, t) && Orderly(s, b, t, ops)
    ensures Conserved(RunOps(s, ops), RunBooks(s, b, t, ops), EndTime(t, ops))
    decreases |ops|
  {
    if ops != [] {
      var m, rest := ops[0], ops[1..];
      StepConserves(s, b, m.op, m.t);
      RunConserves(Perform(s, m.op, m.t), Account(b, s, m.op, m.t), m.t, rest);
      assert EndTime(t, ops) == EndTime(m.t, rest);
    }
  }

  // The three totals after any run: the saturated sum of what the ended legs were
  // due since the last clear, short by at most a second per missed stamp.
  lemma TotalsConserve(s: Session, b: Books, t: int, ops: seq<Moment>)
    requires Conserved(s, b, t) && Orderly(s, b, t, ops)
    ensures var e := RunBooks(s, b, t, ops).settled;
      var totals := RunOps(s, ops).store.totals;
      && (forall x | x in e :: Within(x.charged, x.due))
      && Bounds(totals.all, e, None)
      && Bounds(totals.received, e, Some(Received))
      && Bounds(totals.dialled, e, Some(Dialled))
  {
    RunConserves(s, b, t, ops);
    ConservedTotals(RunOps(s, ops), RunBooks(s, b, t, ops), EndTime(t, ops));
  }

  lemma ConservedTotals(s: Session, b: Books, t: int)
    requires Conserved(s, b, t)
    ensures var totals := s.store.totals;
      && (forall x | x in b.settled :: Within(x.charged, x.due))
      && Bounds(totals.all, b.settled, None)
      && Bounds(totals.received, b.settled, Some(Received))
      && Bounds(totals.dialled, b.settled, Some(Dialled))
  {
    forall which ensures Bounds(Saturate(Charged(s.store.ledger, which)), b.settled, which) {
      ChargedSinceClear(s.store.ledger, which);
      ChargesBound(b.settled, which);
    }
  }

  predicate Bounds(total: u32, settled: seq<Settled>, which: Option<CallList>) {
    var due, missed := DueSeconds(settled, which), MissedSeconds(settled, which);
    Saturate(if due > missed then due - missed else 0) <= total <= Saturate(due)
  }
}
