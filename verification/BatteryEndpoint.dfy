// Which evidence ends a battery's run, and what of it may be learned as EMPTY
// (src/apps/battery_status_logic.c).

module BatteryEndpoint {
  import opened Timebase

  const OPERATIONAL_EMPTY_MV: u16 := 2100
  const RAW_COLLAPSE_MV: u16 := 1800

  function ShutdownThreshold(callActive: bool): u16 {
    if callActive then RAW_COLLAPSE_MV else OPERATIONAL_EMPTY_MV
  }

  datatype Kind = NoEndpoint | CapacityPending | LoadSag | NaturalEmpty | EmergencyShutdown

  datatype EndpointState = EndpointState(armedKind: Kind, sagLatched: bool)

  const NO_STATE := EndpointState(NoEndpoint, false)

  datatype Signs = Signs(
    valid: bool,
    recovering: bool,
    poweredOff: bool,
    callActive: bool,
    gaugeLow: bool,
    gaugeEmpty: bool,
    floorConfirmed: bool,
    railCollapse: bool,
    exhausted: bool,
    chargeAnchored: bool,
    armed: bool)
  {
    predicate Suppressed() {
      recovering || poweredOff
    }

    // Charge the learner vouches for.
    predicate Trusted() {
      chargeAnchored && !exhausted
    }

    // A valid sample that is not EMPTY, and no collapse of the modem's rail.
    predicate ClearsSag() {
      valid && !gaugeEmpty && !railCollapse
    }
  }

  datatype Decision = Decision(kind: Kind, shutdown: bool, learnEmpty: bool, forceLow: bool, disagreement: bool)

  const NO_DECISION := Decision(NoEndpoint, false, false, false, false)

  predicate LiveSag(g: Signs) {
    g.Trusted() && ((g.callActive && g.gaugeEmpty) || g.railCollapse)
  }

  function Latched(s: EndpointState, g: Signs): bool {
    LiveSag(g) || (s.sagLatched && !g.ClearsSag())
  }

  predicate NaturalEndpoint(latched: bool, g: Signs) {
    var heldSag := g.Trusted() && g.gaugeEmpty && (g.callActive || latched);
    || (g.valid && g.gaugeEmpty && !heldSag)
    || (g.exhausted && g.valid && g.gaugeLow && !g.gaugeEmpty && !g.callActive)
    || (g.floorConfirmed && (!g.callActive || !g.Trusted()))
    || (g.railCollapse && !g.Trusted())
  }

  function Decide(latched: bool, g: Signs): Decision {
    var disagreement := g.exhausted && g.valid && !g.gaugeLow && !g.gaugeEmpty &&
                        !g.floorConfirmed && !g.railCollapse;
    var sag := LiveSag(g) || (g.Trusted() && g.gaugeEmpty && (g.callActive || latched));
    if NaturalEndpoint(latched, g) then Decision(NaturalEmpty, true, true, false, disagreement)
    else if g.floorConfirmed then Decision(EmergencyShutdown, true, false, false, disagreement)
    else if sag then Decision(LoadSag, false, false, true, disagreement)
    else if g.exhausted then Decision(CapacityPending, false, false, true, disagreement)
    else Decision(NoEndpoint, false, false, g.gaugeLow, disagreement)
  }

  function EndpointStep(s: EndpointState, g: Signs): (EndpointState, Decision) {
    if g.Suppressed() then (NO_STATE, NO_DECISION)
    else if g.armed then
      (s, Decision(if s.armedKind == NoEndpoint then EmergencyShutdown else s.armedKind, true, false, false, false))
    else
      var latched := Latched(s, g);
      var d := Decide(latched, g);
      (EndpointState(if d.shutdown then d.kind else s.armedKind, latched), d)
  }

  class Endpoint {
    var armedKind: Kind
    var sagLatched: bool

    function State(): EndpointState
      reads this
    {
      EndpointState(armedKind, sagLatched)
    }

    constructor ()
      ensures State() == NO_STATE
    {
      armedKind, sagLatched := NoEndpoint, false;
    }

    method Step(g: Signs) returns (d: Decision)
      modifies this
      ensures (State(), d) == EndpointStep(old(State()), g)
    {
      if g.recovering || g.poweredOff {
        armedKind, sagLatched := NoEndpoint, false;
        return NO_DECISION;
      }
      if g.armed {
        return Decision(if armedKind != NoEndpoint then armedKind else EmergencyShutdown,
                        true, false, false, false);
      }
      var trusted := g.chargeAnchored && !g.exhausted;
      var liveSag := trusted && ((g.callActive && g.gaugeEmpty) || g.railCollapse);
      if liveSag {
        sagLatched := true;
      } else if g.valid && !g.gaugeEmpty && !g.railCollapse {
        sagLatched := false;
      }
      var heldSag := trusted && g.gaugeEmpty && (g.callActive || sagLatched);
      var loadSag := liveSag || heldSag;
      var disagreement := g.exhausted && g.valid && !g.gaugeLow && !g.gaugeEmpty &&
                          !g.floorConfirmed && !g.railCollapse;
      var gaugeEnd := g.valid && g.gaugeEmpty && !heldSag;
      var capacityEnd := g.exhausted && g.valid && g.gaugeLow && !g.gaugeEmpty && !g.callActive;
      var floorEnd := g.floorConfirmed && (!g.callActive || !trusted);
      var collapseEnd := g.railCollapse && !trusted;
      if gaugeEnd || capacityEnd || floorEnd || collapseEnd {
        armedKind := NaturalEmpty;
        return Decision(NaturalEmpty, true, true, false, disagreement);
      }
      if g.floorConfirmed {
        armedKind := EmergencyShutdown;
        return Decision(EmergencyShutdown, true, false, false, disagreement);
      }
      if loadSag {
        return Decision(LoadSag, false, false, true, disagreement);
      }
      if g.exhausted {
        return Decision(CapacityPending, false, false, true, disagreement);
      }
      d := Decision(NoEndpoint, false, false, g.gaugeLow, disagreement);
    }
  }

  // --- Who may end the run, by what is trusted ---

  predicate Live(g: Signs) {
    !g.Suppressed() && !g.armed
  }

  // With no trusted charge left any physical sign is a natural EMPTY.
  lemma UntrustedEndpoint(s: EndpointState, g: Signs)
    requires Live(g) && !g.Trusted()
    ensures var d := EndpointStep(s, g).1;
      && d.kind != EmergencyShutdown && d.kind != LoadSag
      && (d.shutdown <==> d.learnEmpty)
      && (d.learnEmpty <==>
            (g.valid && g.gaugeEmpty) || g.floorConfirmed || g.railCollapse ||
            (g.exhausted && g.valid && g.gaugeLow && !g.callActive))
  {}

  // In a call with trusted charge only the floor ends the run, and teaches nothing.
  lemma CallWithTrustedCharge(s: EndpointState, g: Signs)
    requires Live(g) && g.Trusted() && g.callActive
    ensures var d := EndpointStep(s, g).1;
      && !d.learnEmpty && d.kind != NaturalEmpty
      && (d.shutdown <==> g.floorConfirmed)
      && (d.shutdown ==> d.kind == EmergencyShutdown)
  {}

  // Outside a call the floor, or a valid EMPTY that no sag is holding back.
  lemma IdleWithTrustedCharge(s: EndpointState, g: Signs)
    requires Live(g) && g.Trusted() && !g.callActive
    ensures var d := EndpointStep(s, g).1;
      && d.kind != EmergencyShutdown && (d.shutdown <==> d.learnEmpty)
      && (d.learnEmpty <==>
            g.floorConfirmed || (g.valid && g.gaugeEmpty && !g.railCollapse && !s.sagLatched))
  {}

  // Once a sag is latched, while the charge stays trusted and nothing clears it, it
  // stays latched and only the floor outside a call can teach EMPTY.
  lemma SagHolds(s: EndpointState, g: Signs)
    requires s.sagLatched && !g.Suppressed() && g.Trusted() && !g.ClearsSag()
    ensures var (t, d) := EndpointStep(s, g);
      && t.sagLatched
      && (d.learnEmpty ==> g.floorConfirmed && !g.callActive && !g.armed)
  {}

  datatype Warning = Suppress | Empty | Hold | Low | Healthy

  function WarningAction(valid: bool, recovering: bool, poweredOff: bool, empty: bool, low: bool): Warning {
    if recovering || poweredOff then Suppress
    else if empty then Empty
    else if !valid then Hold
    else if low then Low
    else Healthy
  }
}
