// The battery poll of the status runtime (src/app_status_runtime.c, poll_battery):
// endpoint countdown, notices and the low-battery schedule.

module BatteryRuntime {
  import opened Timebase
  import opened BatteryEvidence
  import opened BatteryEndpoint

  const EMPTY_OFF_DELAY: u32 := 2056
  const LOW_WARN_FAST: u32 := 61000
  const LOW_WARN_STEADY: u32 := 614000

  // The display records this poll opens.
  const FULL_NOTICE: nat := 14
  const EMPTY_NOTICE: nat := 15
  const LOW_NOTICE: nat := 16
  const CHARGING_NOTICE: nat := 18

  datatype Screen = PoweredOff | ContactService | Standby | Other(id: nat) | Message(record: nat, back: Screen)

  // What the services report to one poll; at is the unwrapped millisecond clock.
  datatype Readings = Readings(
    at: nat,
    valid: bool,
    charger: bool,
    chargeActive: bool,
    chargeCompleted: bool,
    maintenanceRestarted: bool,
    recovering: bool,
    sequence: u32,
    mv: u16,
    gaugeEmpty: bool,
    gaugeLow: bool,
    railFailed: bool,
    railMarginal: bool,
    exhausted: bool,
    chargeAnchored: bool,
    callActive: bool)

  // What it asks of the services.
  datatype Effect = OfferEmpty(at: nat) | TurnOff(at: nat) | Notice(record: nat, at: nat) | ReleaseFloor(at: nat)

  datatype Charging = Charging(present: bool, active: bool, fullNotified: bool)

  datatype LowSchedule = LowSchedule(notified: bool, fast: bool, nextMs: u32)

  datatype Battery = Battery(
    screen: Screen,
    charging: Charging,
    evidence: Evidence,
    endpoint: EndpointState,
    kind: Kind,
    disagreement: bool,
    low: LowSchedule,
    emptyOffMs: u32,
    log: seq<Effect>)

  function Show(b: Battery, record: nat, back: Screen, at: nat): Battery {
    b.(screen := Message(record, back), log := b.log + [Notice(record, at)])
  }

  // An automatic notice never covers another one, nor the service screen.
  predicate Free(screen: Screen) {
    !screen.Message? && !screen.ContactService?
  }

  function ChargerStage(b: Battery, r: Readings): Battery {
    if r.charger == b.charging.present then b
    else
      var c := b.(charging := b.charging.(present := r.charger,
                                          fullNotified := !r.charger && b.charging.fullNotified));
      if r.charger && b.screen.Standby? then Show(c, CHARGING_NOTICE, Standby, r.at) else c
  }

  function FullNotice(notified: bool, completed: bool, restarted: bool): (bool, bool) {
    if restarted then (false, false) else (notified || completed, completed && !notified)
  }

  function FullStage(b: Battery, r: Readings): Battery {
    var (notified, show) := FullNotice(b.charging.fullNotified, r.chargeCompleted, r.maintenanceRestarted);
    var c := b.(charging := Charging(b.charging.present, r.chargeActive, notified));
    if show && Free(b.screen) && !b.screen.PoweredOff? then Show(c, FULL_NOTICE, b.screen, r.at) else c
  }

  function SampleOf(off: bool, r: Readings): Sample {
    Sample(r.valid && !r.recovering && !off, r.sequence, r.mv, ShutdownThreshold(r.callActive))
  }

  // A failed supply is taken from the modem only when there is evidence to judge it by.
  predicate SupplyCollapse(off: bool, r: Readings) {
    (r.valid || r.charger || off) && r.railFailed && r.railMarginal
  }

  function SignsOf(b: Battery, off: bool, r: Readings): Signs {
    Signs(r.valid, r.recovering, off, r.callActive,
          r.valid && r.gaugeLow, r.valid && r.gaugeEmpty,
          Confirmed(b.evidence),
          SupplyCollapse(off, r),
          r.exhausted, r.chargeAnchored, b.emptyOffMs != 0)
  }

  function EvidenceStage(b: Battery, off: bool, r: Readings): Battery {
    b.(evidence := Observe(b.evidence, SampleOf(off, r)))
  }

  // The endpoint decision and the warning it leads to.
  function EndpointStage(b: Battery, off: bool, r: Readings): (Battery, Decision) {
    var (e, d) := EndpointStep(b.endpoint, SignsOf(b, off, r));
    (b.(endpoint := e, kind := d.kind, disagreement := d.disagreement), d)
  }

  predicate LowZone(d: Decision, r: Readings) {
    r.valid && (r.gaugeLow || d.forceLow)
  }

  function ActionOf(d: Decision, off: bool, r: Readings): Warning {
    WarningAction(r.valid, r.recovering, off, d.shutdown, LowZone(d, r))
  }

  function ReleaseStage(b: Battery, d: Decision, r: Readings): Battery {
    if r.charger && !r.recovering && (LowZone(d, r) || d.shutdown) then b.(log := b.log + [ReleaseFloor(r.at)])
    else b
  }

  function CancelCountdown(b: Battery): Battery {
    if b.emptyOffMs == 0 then b
    else b.(emptyOffMs := 0,
            screen := if b.screen.Message? && b.screen.record == EMPTY_NOTICE then b.screen.back else b.screen)
  }

  // 0 is kept for no countdown.
  function Deadline(now: u32): (d: u32)
    ensures d != 0
  {
    var d := Add32(now, EMPTY_OFF_DELAY);
    if d == 0 then 1 else d
  }

  function StartCountdown(b: Battery, d: Decision, r: Readings): Battery {
    if b.emptyOffMs != 0 then b
    else
      b.(emptyOffMs := Deadline(Wrap(r.at)), log := b.log + if d.learnEmpty then [OfferEmpty(r.at)] else [])
  }

  function EnterLow(b: Battery, now: u32): Battery {
    if b.low.notified then b else b.(low := LowSchedule(true, true, now))
  }

  // contact says the service screen was up when the poll began.
  function LowNoticeStage(b: Battery, contact: bool, r: Readings): Battery {
    if TimeDiff(Wrap(r.at), b.low.nextMs) >= 0 && !contact && !b.screen.Message? then
      var next := Add32(Wrap(r.at), if b.low.fast then LOW_WARN_FAST else LOW_WARN_STEADY);
      Show(b, LOW_NOTICE, b.screen, r.at).(low := LowSchedule(b.low.notified, false, next))
    else b
  }

  function EndLow(b: Battery): Battery {
    b.(low := b.low.(notified := false))
  }

  function WarningStage(b: Battery, d: Decision, action: Warning, contact: bool, r: Readings): Battery {
    match action
    case Suppress => CancelCountdown(EndLow(b))
    case Empty => StartCountdown(EndLow(b), d, r)
    case Hold => b
    case Low => LowNoticeStage(EnterLow(CancelCountdown(b), Wrap(r.at)), contact, r)
    case Healthy => CancelCountdown(EndLow(b))
  }

  function EmptyNoticeStage(b: Battery, started: bool, contact: bool, r: Readings): Battery {
    if started && !contact && !b.screen.Message? then Show(b, EMPTY_NOTICE, b.screen, r.at) else b
  }

  function ExpiryStage(b: Battery, off: bool, r: Readings): Battery {
    if b.emptyOffMs != 0 && TimeDiff(Wrap(r.at), b.emptyOffMs) >= 0 then
      var c := b.(emptyOffMs := 0);
      if off then c else c.(screen := PoweredOff, log := c.log + [TurnOff(r.at)])
    else b
  }

  // Everything up to the endpoint decision.
  function Sensed(b: Battery, r: Readings): (Battery, Decision) {
    EndpointStage(EvidenceStage(FullStage(ChargerStage(b, r), r), b.screen.PoweredOff?, r),
                  b.screen.PoweredOff?, r)
  }

  // Everything after it.
  function Acted(b: Battery, d: Decision, off: bool, contact: bool, r: Readings): Battery {
    var action := ActionOf(d, off, r);
    var c := ReleaseStage(b, d, r);
    var started := action == Empty && c.emptyOffMs == 0;
    var e := EmptyNoticeStage(WarningStage(c, d, action, contact, r), started, contact, r);
    ExpiryStage(e, off, r)
  }

  function Poll(b: Battery, r: Readings): Battery {
    var (s, d) := Sensed(b, r);
    Acted(s, d, b.screen.PoweredOff?, b.screen.ContactService?, r)
  }

  function ActionAt(b: Battery, r: Readings): Warning {
    ActionOf(Sensed(b, r).1, b.screen.PoweredOff?, r)
  }

  class Supervisor {
    var screen: Screen
    var chargerPresent: bool
    var chargeActive: bool
    var fullNotified: bool
    const evidence: CollapseEvidence
    const endpoint: Endpoint
    var kind: Kind
    var disagreement: bool
    var lowNotified: bool
    var lowFast: bool
    var lowNextMs: u32
    var emptyOffMs: u32
    var log: seq<Effect>

    function State(): Battery
      reads this, evidence, endpoint
    {
      Battery(screen, Charging(chargerPresent, chargeActive, fullNotified), evidence.State(), endpoint.State(),
              kind, disagreement, LowSchedule(lowNotified, lowFast, lowNextMs), emptyOffMs, log)
    }

    constructor (shown: Screen)
      ensures fresh(evidence) && fresh(endpoint)
      ensures State() == Battery(shown, Charging(false, false, false), NO_EVIDENCE, NO_STATE, NoEndpoint, false,
                                 LowSchedule(false, false, 0), 0, [])
    {
      evidence := new CollapseEvidence();
      endpoint := new Endpoint();
      screen, chargerPresent, chargeActive, fullNotified := shown, false, false, false;
      kind, disagreement, lowNotified, lowFast, lowNextMs := NoEndpoint, false, false, false, 0;
      emptyOffMs, log := 0, [];
    }

    method OpenDisplay(record: nat, back: Screen, at: nat)
      modifies this`screen, this`log
      ensures State() == Show(old(State()), record, back, at)
    {
      screen := Message(record, back);
      log := log + [Notice(record, at)];
    }

    method CancelEmptyCountdown()
      modifies this`emptyOffMs, this`screen
      ensures State() == CancelCountdown(old(State()))
    {
      if emptyOffMs == 0 {
        return;
      }
      emptyOffMs := 0;
      if screen.Message? && screen.record == EMPTY_NOTICE {
        screen := screen.back;
      }
    }

    method FollowCharger(r: Readings)
      modifies this`chargerPresent, this`fullNotified, this`screen, this`log
      ensures State() == ChargerStage(old(State()), r)
    {
      var standby := screen.Standby?;
      if r.charger != chargerPresent {
        chargerPresent := r.charger;
        if r.charger {
          fullNotified := false;
          if standby {
            OpenDisplay(CHARGING_NOTICE, Standby, r.at);
          }
        }
      }
    }

    method NoticeFull(off: bool, contact: bool, r: Readings)
      requires off == screen.PoweredOff? && contact == screen.ContactService?
      modifies this`chargeActive, this`fullNotified, this`screen, this`log
      ensures State() == FullStage(old(State()), r)
    {
      var (notified, show) := FullNotice(fullNotified, r.chargeCompleted, r.maintenanceRestarted);
      fullNotified := notified;
      if r.chargeActive != chargeActive || r.chargeCompleted {
        chargeActive := r.chargeActive;
        if show {
          if !off && !contact && !screen.Message? {
            OpenDisplay(FULL_NOTICE, screen, r.at);
          }
        }
      }
    }

    method WarnLow(contact: bool, r: Readings)
      modifies this`lowNotified, this`lowFast, this`lowNextMs, this`screen, this`log, this`emptyOffMs
      ensures State() == WarningStage(old(State()), NO_DECISION, Low, contact, r)
    {
      var now := Wrap(r.at);
      CancelEmptyCountdown();
      if !lowNotified {
        lowNotified, lowFast, lowNextMs := true, true, now;
      }
      if TimeDiff(now, lowNextMs) >= 0 && !contact && !screen.Message? {
        OpenDisplay(LOW_NOTICE, screen, r.at);
        lowNextMs := Add32(now, if lowFast then LOW_WARN_FAST else LOW_WARN_STEADY);
        lowFast := false;
      }
    }

    method Warn(d: Decision, action: Warning, contact: bool, r: Readings) returns (started: bool)
      modifies this`lowNotified, this`lowFast, this`lowNextMs, this`screen, this`log, this`emptyOffMs
      ensures State() == WarningStage(old(State()), d, action, contact, r)
      ensures started <==> action == Empty && old(emptyOffMs) == 0
    {
      started := false;
      if action == Suppress {
        lowNotified := false;
        CancelEmptyCountdown();
      } else if action == Empty {
        lowNotified := false;
        if emptyOffMs == 0 {
          if d.learnEmpty {
            log := log + [OfferEmpty(r.at)];
          }
          started := true;
          emptyOffMs := Add32(Wrap(r.at), EMPTY_OFF_DELAY);
          if emptyOffMs == 0 {
            emptyOffMs := 1;
          }
        }
      } else if action == Hold {
      } else if action == Low {
        WarnLow(contact, r);
      } else {
        lowNotified := false;
        CancelEmptyCountdown();
      }
    }

    method Expire(off: bool, r: Readings)
      modifies this`screen, this`log, this`emptyOffMs
      ensures State() == ExpiryStage(old(State()), off, r)
    {
      if emptyOffMs != 0 && TimeDiff(Wrap(r.at), emptyOffMs) >= 0 {
        emptyOffMs := 0;
        if !off {
          screen := PoweredOff;
          log := log + [TurnOff(r.at)];
        }
      }
    }

    method ReleaseChargeFloor(d: Decision, lowZone: bool, r: Readings)
      requires lowZone == LowZone(d, r)
      modifies this`log
      ensures State() == ReleaseStage(old(State()), d, r)
    {
      if r.charger && !r.recovering && (lowZone || d.shutdown) {
        log := log + [ReleaseFloor(r.at)];
      }
    }

    method ShowEmpty(started: bool, contact: bool, r: Readings)
      modifies this`screen, this`log
      ensures State() == EmptyNoticeStage(old(State()), started, contact, r)
    {
      if started {
        if !contact && !screen.Message? {
          OpenDisplay(EMPTY_NOTICE, screen, r.at);
        }
      }
    }

    method Act(d: Decision, off: bool, contact: bool, r: Readings)
      modifies this`lowNotified, this`lowFast, this`lowNextMs, this`screen, this`log, this`emptyOffMs
      ensures State() == Acted(old(State()), d, off, contact, r)
    {
      var lowZone := r.valid && ((r.valid && r.gaugeLow) || d.forceLow);
      ReleaseChargeFloor(d, lowZone, r);
      var action := WarningAction(r.valid, r.recovering, off, d.shutdown, lowZone);
      var started := Warn(d, action, contact, r);
      ShowEmpty(started, contact, r);
      Expire(off, r);
    }

    method Confirm(off: bool, r: Readings) returns (confirmed: bool)
      modifies evidence
      ensures State() == EvidenceStage(old(State()), off, r)
      ensures confirmed <==> Confirmed(State().evidence)
    {
      confirmed := evidence.Update(
        Sample(r.valid && !r.recovering && !off, r.sequence, r.mv, ShutdownThreshold(r.callActive)));
    }

    method GatherSigns(confirmed: bool, collapse: bool, off: bool, r: Readings) returns (g: Signs)
      requires confirmed <==> Confirmed(evidence.State())
      requires collapse <==> SupplyCollapse(off, r)
      ensures g == SignsOf(State(), off, r)
    {
      g := Signs(r.valid, r.recovering, off, r.callActive, r.valid && r.gaugeLow, r.valid && r.gaugeEmpty,
                 confirmed, collapse, r.exhausted, r.chargeAnchored, emptyOffMs != 0);
    }

    method JudgeEndpoint(g: Signs, off: bool, r: Readings) returns (d: Decision)
      requires g == SignsOf(State(), off, r)
      modifies this`kind, this`disagreement, endpoint
      ensures (State(), d) == EndpointStage(old(State()), off, r)
    {
      d := endpoint.Step(g);
      kind, disagreement := d.kind, d.disagreement;
    }

    method PollBattery(r: Readings)
      modifies this, evidence, endpoint
      ensures State() == Poll(old(State()), r)
    {
      var off, contact := screen.PoweredOff?, screen.ContactService?;
      var collapse := (r.valid || r.charger || off) && r.railFailed && r.railMarginal;
      FollowCharger(r);
      NoticeFull(off, contact, r);
      var confirmed := Confirm(off, r);
      var g := GatherSigns(confirmed, collapse, off, r);
      var d := JudgeEndpoint(g, off, r);
      Act(d, off, contact, r);
    }
  }
}
