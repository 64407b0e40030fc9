// The persistent side of a call: cumulative durations and register entries
// (call_accounting_add, the store calls and "Clear timers").

module CallStore {
  import opened Wrappers
  import opened Timebase
  import opened CallTypes

  function Saturate(n: nat): u32 {
    if n > U32_MAX then U32_MAX else n
  }

  function SaturatingAdd(value: u32, seconds: u32): u32 {
    if U32_MAX - value < seconds then U32_MAX else value + seconds
  }

  // Seconds charged since the last clear, to one list or (None) to any.
  function Charged(ledger: seq<LedgerItem>, which: Option<CallList>): nat {
    if ledger == [] then 0
    else
      var prefix := ledger[..|ledger| - 1];
      match ledger[|ledger| - 1]
      case Cleared => 0
      case Charge(list, seconds) =>
        Charged(prefix, which) + if which == None || which == Some(list) then seconds else 0
  }

  // The three running totals are the saturated sums of the charges.
  predicate TotalsMatch(st: Store) {
    && st.totals.all == Saturate(Charged(st.ledger, None))
    && st.totals.received == Saturate(Charged(st.ledger, Some(Received)))
    && st.totals.dialled == Saturate(Charged(st.ledger, Some(Dialled)))
  }

  lemma ChargedStep(ledger: seq<LedgerItem>, item: LedgerItem, which: Option<CallList>)
    ensures Charged(ledger + [item], which) ==
      match item
      case Cleared => 0
      case Charge(list, seconds) =>
        Charged(ledger, which) + if which == None || which == Some(list) then seconds else 0
  {
    assert (ledger + [item])[..|ledger|] == ledger;
  }

  function AddSeconds(st: Store, list: CallList, seconds: u32): (r: Store)
    ensures TotalsMatch(st) ==> TotalsMatch(r)
    ensures r.closings == st.closings && r.register == st.register
  {
    if seconds == 0 then st
    else
      var t := st.totals;
      var item := Charge(list, seconds);
      ChargedStep(st.ledger, item, None);
      ChargedStep(st.ledger, item, Some(Received));
      ChargedStep(st.ledger, item, Some(Dialled));
      st.(totals := Totals(
            seconds,
            SaturatingAdd(t.all, seconds),
            if list == Received then SaturatingAdd(t.received, seconds) else t.received,
            if list == Dialled then SaturatingAdd(t.dialled, seconds) else t.dialled),
          ledger := st.ledger + [item])
  }

  function ClearTimers(st: Store): (r: Store)
    ensures TotalsMatch(r)
    ensures r.closings == st.closings && r.register == st.register
  {
    ChargedStep(st.ledger, Cleared, None);
    ChargedStep(st.ledger, Cleared, Some(Received));
    ChargedStep(st.ledger, Cleared, Some(Dialled));
    st.(totals := Totals(0, 0, 0, 0), ledger := st.ledger + [Cleared])
  }

  function Close(st: Store, list: CallList, id: u32, seconds: u32, reason: Reason): Store {
    if id == 0 then st
    else st.(closings := st.closings + [Closing(list, id, seconds, reason)])
  }

  // What ending a connected leg does: charge its seconds and close its entry.
  function Settle(st: Store, leg: Leg, seconds: u32, reason: Reason): (r: Store)
    ensures TotalsMatch(st) ==> TotalsMatch(r)
    ensures r.register == st.register
  {
    Close(AddSeconds(st, leg.list, seconds), leg.list, leg.recordId, seconds, reason)
  }

  function Register(st: Store, e: Entry): Store {
    st.(register := st.register + [e])
  }
}
