// The receive flow control of the modem UART (include/hal/modem_uart_flow_logic.h):
// ring occupancy through counter wrap, and the pause/resume hysteresis over any run.

module UartFlow {
  import opened Timebase

  const RING_SIZE: nat := 1024
  const PAUSE_LEVEL: nat := 896
  const RESUME_LEVEL: nat := 512

  datatype Action = Keep | Pause | Resume

  // (head - tail) & (RING_SIZE - 1).
  function RingOccupancy(head: u32, tail: u32): u32 {
    Sub32(head, tail) % RING_SIZE
  }

  function FlowAction(occupancy: u32, paused: bool): Action {
    if !paused && occupancy >= PAUSE_LEVEL then Pause
    else if paused && occupancy <= RESUME_LEVEL then Resume
    else Keep
  }

  lemma WrapModRing(x: int)
    ensures Wrap(x) % RING_SIZE == x % RING_SIZE
  {
    assert x == x / WORD * WORD + Wrap(x);
    ModMultiple(Wrap(x), x / WORD * 0x40_0000);
  }

  lemma ModMultiple(x: int, k: int)
    ensures (x + k * RING_SIZE) % RING_SIZE == x % RING_SIZE
  {}

  // Counters that wrap at 2^32 give the true count of bytes held while that fits the ring.
  lemma OccupancyExact(produced: nat, consumed: nat)
    requires consumed <= produced < consumed + RING_SIZE
    ensures RingOccupancy(Wrap(produced), Wrap(consumed)) == produced - consumed
  {
    SubWrap(produced, consumed);
    WrapModRing(produced - consumed);
  }

  // So do indices that wrap at the ring's own size.
  lemma IndexOccupancyExact(produced: nat, consumed: nat)
    requires consumed <= produced < consumed + RING_SIZE
    ensures RingOccupancy(produced % RING_SIZE, consumed % RING_SIZE) == produced - consumed
  {
    var x := produced % RING_SIZE - consumed % RING_SIZE;
    WrapModRing(x);
    var k := consumed / RING_SIZE - produced / RING_SIZE;
    assert x == produced - consumed + k * RING_SIZE;
    ModMultiple(produced - consumed, k);
  }

  // --- Runs ---

  // A change of flow, and how many bytes had been produced and consumed by then.
  datatype Mark = Mark(action: Action, produced: nat, consumed: nat)

  // late counts the bytes that arrived since the last pause.
  datatype Link = Link(produced: nat, consumed: nat, paused: bool, late: nat, marks: seq<Mark>)

  const IDLE_LINK := Link(0, 0, false, 0, [])

  datatype Event = Arrive | Drain(n: nat)

  function Regulate(k: Link): (r: Link)
    ensures r.produced == k.produced && r.consumed == k.consumed
  {
    var action := FlowAction(RingOccupancy(Wrap(k.produced), Wrap(k.consumed)), k.paused);
    if action == Keep then k
    else k.(paused := action == Pause, late := 0, marks := k.marks + [Mark(action, k.produced, k.consumed)])
  }

  function Step(k: Link, e: Event): Link {
    match e
    case Arrive => Regulate(k.(produced := k.produced + 1, late := if k.paused then k.late + 1 else 0))
    case Drain(n) =>
      var held := k.produced - k.consumed;
      Regulate(k.(consumed := k.consumed + if n <= held then n else held))
  }

  function Run(k: Link, es: seq<Event>): Link {
    if es == [] then k else Step(Run(k, es[..|es| - 1]), es[|es| - 1])
  }

  // The sender lets at most 127 bytes follow a pause.
  predicate Allowed(k: Link, e: Event) {
    e.Arrive? && k.paused ==> k.late < 127
  }

  predicate SenderStops(es: seq<Event>) {
    es != [] ==> SenderStops(es[..|es| - 1]) && Allowed(Run(IDLE_LINK, es[..|es| - 1]), es[|es| - 1])
  }

  predicate Alternate(marks: seq<Mark>) {
    forall i | 0 <= i < |marks| :: marks[i].action == if i % 2 == 0 then Pause else Resume
  }

  // Every resume comes at least 384 bytes net below the pause before it.
  predicate Drained(marks: seq<Mark>) {
    forall i | 0 < i < |marks| && marks[i].action == Resume ::
      (marks[i].consumed - marks[i - 1].consumed) - (marks[i].produced - marks[i - 1].produced) >= 384
  }

  predicate InBounds(k: Link) {
    && k.consumed <= k.produced
    && k.late <= 127
    && k.produced - k.consumed <= if k.paused then PAUSE_LEVEL + k.late else PAUSE_LEVEL - 1
  }

  predicate Regular(k: Link) {
    && Alternate(k.marks) && Drained(k.marks)
    && (k.paused <==> |k.marks| % 2 == 1)
    && (k.paused ==> var last := k.marks[|k.marks| - 1]; last.produced - last.consumed >= PAUSE_LEVEL)
  }

  lemma RegulateKeeps(k: Link)
    requires k.consumed <= k.produced < k.consumed + RING_SIZE && Regular(k)
    requires k.late <= 127 && k.produced - k.consumed <= if k.paused then PAUSE_LEVEL + k.late else PAUSE_LEVEL
    ensures InBounds(Regulate(k)) && Regular(Regulate(k))
  {
    OccupancyExact(k.produced, k.consumed);
  }

  // However bytes arrive and are drained, the ring never fills, pauses and resumes
  // strictly alternate, and each pause lasts until 384 net bytes are drained.
  lemma {:induction false} NeverOverflows(es: seq<Event>)
    requires SenderStops(es)
    ensures var k := Run(IDLE_LINK, es);
      && InBounds(k) && Regular(k)
      && k.produced - k.consumed < RING_SIZE
  {
    if es != [] {
      NeverOverflows(es[..|es| - 1]);
      StepKeeps(Run(IDLE_LINK, es[..|es| - 1]), es[|es| - 1]);
    }
  }

  lemma StepKeeps(k: Link, e: Event)
    requires InBounds(k) && Regular(k) && Allowed(k, e)
    ensures InBounds(Step(k, e)) && Regular(Step(k, e))
  {
    match e
    case Arrive =>
      RegulateKeeps(k.(produced := k.produced + 1, late := if k.paused then k.late + 1 else 0));
    case Drain(n) =>
      var held := k.produced - k.consumed;
      RegulateKeeps(k.(consumed := k.consumed + if n <= held then n else held));
  }

  // An unpaused link pauses on exactly the first event that leaves 896 bytes held, a
  // paused one resumes on exactly the first that leaves at most 512.
  lemma SwitchesExactly(es: seq<Event>, e: Event)
    requires SenderStops(es + [e])
    ensures var k, next := Run(IDLE_LINK, es), Run(IDLE_LINK, es + [e]);
      var held := next.produced - next.consumed;
      && (next.paused <==> if k.paused then held > 512 else held >= 896)
      && next.marks == k.marks + if next.paused == k.paused then []
           else [Mark(if next.paused then Pause else Resume, next.produced, next.consumed)]
  {
    assert (es + [e])[..|es|] == es;
    NeverOverflows(es);
    NeverOverflows(es + [e]);
    var next := Run(IDLE_LINK, es + [e]);
    OccupancyExact(next.produced, next.consumed);
  }

  function Arrivals(n: nat): seq<Event> {
    seq(n, _ => Arrive)
  }

  const PAUSED := Mark(Pause, PAUSE_LEVEL, 0)

  // n bytes in a row and nothing drained.
  lemma {:induction false} ArrivalRun(n: nat)
    requires n <= RING_SIZE
    ensures Run(IDLE_LINK, Arrivals(n)) ==
      if n < PAUSE_LEVEL then Link(n, 0, false, 0, [])
      else if n < RING_SIZE then Link(n, 0, true, n - PAUSE_LEVEL, [PAUSED])
      else Link(n, 0, false, 0, [PAUSED, Mark(Resume, RING_SIZE, 0)])
  {
    if n > 0 {
      ArrivalRun(n - 1);
      assert Arrivals(n)[..n - 1] == Arrivals(n - 1);
      ArrivalStep(n);
    }
  }

  lemma ArrivalStep(n: nat)
    requires 0 < n <= RING_SIZE
    ensures Step(if n <= PAUSE_LEVEL then Link(n - 1, 0, false, 0, [])
                 else Link(n - 1, 0, true, n - 1 - PAUSE_LEVEL, [PAUSED]), Arrive) ==
      if n < PAUSE_LEVEL then Link(n, 0, false, 0, [])
      else if n < RING_SIZE then Link(n, 0, true, n - PAUSE_LEVEL, [PAUSED])
      else Link(n, 0, false, 0, [PAUSED, Mark(Resume, RING_SIZE, 0)])
  {
    if n < RING_SIZE {
      OccupancyExact(n, 0);
    } else {
      SubWrap(n, 0);
    }
  }

  lemma {:induction false} ArrivalsStop(n: nat)
    requires n < RING_SIZE
    ensures SenderStops(Arrivals(n))
  {
    if n > 0 {
      ArrivalsStop(n - 1);
      assert Arrivals(n)[..n - 1] == Arrivals(n - 1);
      ArrivalRun(n - 1);
    }
  }

  // One byte more after the pause: the run that fills the ring keeps the rule up to
  // its last byte, and on that byte the full ring reads as empty and resumes.
  lemma BoundIsTight()
    ensures SenderStops(Arrivals(RING_SIZE - 1)) && Run(IDLE_LINK, Arrivals(RING_SIZE - 1)).late == 127
    ensures var k := Run(IDLE_LINK, Arrivals(RING_SIZE));
      && k.produced - k.consumed == RING_SIZE
      && RingOccupancy(Wrap(k.produced), Wrap(k.consumed)) == 0
      && !k.paused && k.marks == [PAUSED, Mark(Resume, RING_SIZE, 0)] && !Drained(k.marks)
  {
    ArrivalsStop(RING_SIZE - 1);
    ArrivalRun(RING_SIZE - 1);
    ArrivalRun(RING_SIZE);
    SubWrap(RING_SIZE, 0);
    var marks := [PAUSED, Mark(Resume, RING_SIZE, 0)];
    assert marks[1].action == Resume && marks[1 - 1] == PAUSED;
  }
}
