// The values the call machine works on: what the modem service reports at a
// poll, what the app shows, and what it leaves in the store.

module CallTypes {
  import opened Timebase

  // --- What the modem service reports (include/services/modem_service.h) ---

  datatype CallState = Idle | Ringing | Dialing | Answering | Active | Ending

  datatype CallResult = NoResult | Connected | NoCarrier | Busy | NoAnswer | NoDialtone

  datatype LegState =
    | UnknownLeg | ActiveLeg | HeldLeg | DialingLeg | AlertingLeg
    | IncomingLeg | WaitingLeg | ReleasingLeg

  datatype LegSnapshot = LegSnapshot(id: u8, generation: u8, state: LegState,
                                     pendingRemoval: bool, episode: u32)

  datatype Snapshot = Snapshot(legs: seq<LegSnapshot>, pendingIncoming: bool,
                               alertObserved: bool, pendingEpisode: u32, overflow: bool)

  datatype Status = Status(callState: CallState, lastResult: CallResult, secondResult: CallResult,
                           activeId: u8, secondHeld: bool, onHold: bool, waitingCall: bool,
                           incomingNumber: string, withheld: bool, diverted: bool,
                           registered: bool)

  // --- What the register and the duration settings hold ---

  datatype CallList = Missed | Received | Dialled

  datatype Reason =
    | NoReason | WasMissed | WasReceived | WasDialled | WasBusy | WasNotAnswered
    | WasRejected | WasUnreachable | HadNoNetwork

  // Ids handed out by the register are never 0.
  type RecordId = x: int | 0 < x < 0x1_0000_0000 witness 1

  datatype Totals = Totals(last: u32, all: u32, received: u32, dialled: u32)

  datatype LedgerItem = Charge(list: CallList, seconds: u32) | Cleared

  datatype Closing = Closing(list: CallList, id: RecordId, seconds: u32, reason: Reason)

  // One missed or received entry; caller is the presentation it came from.
  datatype Entry = Entry(list: CallList, number: string, name: string, caller: nat)

  datatype Store = Store(totals: Totals, ledger: seq<LedgerItem>, closings: seq<Closing>,
                         register: seq<Entry>)

  // --- What the app keeps per session (include/app.h) ---

  datatype Route = Standby | IncomingCall | Call | CallOptions | InCallEditor | Elsewhere

  datatype Phase = Setup | Live

  datatype Leg = Leg(number: string, name: string, list: CallList, recordId: u32)

  // The two display slots of a session.
  datatype Slots = Slots(primary: Leg, connectedMs: u32, held: Leg, heldSeconds: u32,
                         secondary: bool, onHold: bool)

  // The incoming call behind the primary slot; caller numbers the presentation.
  datatype Incoming = Incoming(active: bool, answerPending: bool, recorded: bool,
                               withheld: bool, diverted: bool, caller: nat)

  // The waiting overlay; caller numbers the presentation.
  datatype Waiting = Waiting(pending: bool, id: u8, generation: u8, episode: u32,
                             number: string, name: string, withheld: bool, diverted: bool,
                             recorded: bool, caller: nat)

  // User requests about the waiting call that the network has not answered yet.
  datatype Asked = Asked(action: bool, release: bool, releaseId: u8, retryMs: u32)

  datatype Survivor = Survivor(pending: bool, id: u8, dueMs: u32)

  datatype CallSetup = CallSetup(newActiveRef: u8, startedMs: u32, activeSeenMs: u32,
                                 failureMs: u32, failureResult: CallResult)

  // The flat status as the previous poll saw it.
  datatype Seen = Seen(state: CallState, result: CallResult, secondHeld: bool, activeId: u8)

  datatype Request =
    | AutoHold(id: u8) | ManualHold | Hangup | Answer | WaitingAnswer | WaitingReject
    | ReleaseLeg(id: u8) | ReleaseActive | SwapRequest | Dial(number: string) | Abandon

  datatype Session = Session(
    route: Route,
    phase: Phase,
    slots: Slots,
    incoming: Incoming,
    waiting: Waiting,
    asked: Asked,
    survivor: Survivor,
    setup: CallSetup,
    seen: Seen,
    localHangup: bool,
    resultArmed: bool,
    missedCount: u8,
    nextCaller: nat,
    store: Store,
    requests: seq<Request>)

  const BLANK_LEG := Leg("", "", Dialled, 0)
  const BLANK_SLOTS := Slots(BLANK_LEG, 0, BLANK_LEG, 0, false, false)
  const NO_WAITING := Waiting(false, 0, 0, 0, "", "", false, false, false, 0)
  const NOTHING_ASKED := Asked(false, false, 0, 0)
  const NOT_INCOMING := Incoming(false, false, false, false, false, 0)
  const NO_SETUP := CallSetup(0, 0, 0, 0, NoResult)
  const NO_SURVIVOR := Survivor(false, 0, 0)

  // What one poll sees besides the session: the clock, the service snapshots, the
  // contact name of the incoming number, three service answers and a fresh id.
  datatype PollInput = PollInput(now: u32, status: Status, snapshot: Snapshot,
                                 contactName: string, releaseActivePending: bool,
                                 cleanupPending: bool, holdAdmitted: bool,
                                 newRecordId: RecordId)
}
