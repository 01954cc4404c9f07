/** One authentication challenge: the entry its monitor and its page handlers share under one
    mutex, as a machine over lock-delimited steps of any number of request threads. */
module AuthChallenge {
  import opened Common

  // Action identifiers and replay keys are compared for equality only.
  type ActionId = nat
  type ReplayKey = nat
  type Tid = nat
  type Time = int

  const ZeroTime: Time := 0
  const StabilityWindow: Time := 15_000_000_000
  const MinimumObservations := 3
  const MaxAttemptsPerAction := 3
  const MaxAttemptsPerChallenge := 6
  const MaxCodeAttempts := 8

  datatype RuntimeState = Unset | Stopped | Starting | AuthRequired | Online | Degraded | Offline

  /** An advertised action; `key` is its replay key when that key is well formed. */
  datatype Action = Action(id: ActionId, key: Option<ReplayKey>)

  datatype Snapshot = Snapshot(state: RuntimeState, sms: bool, actions: seq<Action>)

  /** The public challenge and the evidence behind it. */
  datatype View = View(
    state: RuntimeState, completedAt: Option<Time>, expiresAt: Time, closed: bool,
    candidateSince: Time, observations: nat)

  /** Attempt accounting, single-flight flag and tombstones of the login actions. */
  datatype Books = Books(
    attempts: map<ActionId, nat>, total: nat, inFlight: bool,
    performedActions: set<ActionId>, performedKeys: set<ReplayKey>)

  datatype Codes = Codes(attempts: nat, inFlight: bool, submitted: bool)

  datatype FailureKind =
    | InvalidArgument | AuthNeeded | ClientIncompatible | TargetAmbiguous | Unsupported | ConfirmationRequired
    | UserActionRequired | NotFound | Stale | DriverUnavailable | SendUncertain

  /** How the driver's PerformAuthAction ended; `consumed` marks a failure after dispatch. */
  datatype DriverError = Accepted | Unclassified(consumed: bool) | Classified(kind: FailureKind, consumed: bool)

  /** `authActionDefinitivelyRejected`: only these outcomes prove that nothing was dispatched. */
  predicate DefinitivelyRejected(err: DriverError) {
    && err.Classified? && !err.consumed
    && (match err.kind
        case InvalidArgument => true
        case AuthNeeded => true
        case ClientIncompatible => true
        case TargetAmbiguous => true
        case UserActionRequired => true
        case Stale => true
        case DriverUnavailable => true
        case _ => false)
  }

  /** Where a request thread stands inside `performAuthAction` or `submitCode`. */
  datatype Phase =
    | Gated(id: ActionId)                      // single-flight flag taken
    | Chosen(id: ActionId, key: ReplayKey)     // advertised exactly once in a fresh snapshot
    | Calling(id: ActionId, key: ReplayKey)    // driver call in flight
    | Releasing(id: ActionId, key: ReplayKey)  // definitively rejected, tombstones not yet released
    | Leaving                                  // only the flag remains to be cleared
    | CodeGated                                // code single-flight flag taken
    | CodeCalling                              // SubmitAuthCode in flight
    | CodeLeaving(accepted: bool)

  /** One invocation of the driver's PerformAuthAction, with its answer once there is one. */
  datatype Call = Call(id: ActionId, key: ReplayKey, answer: Option<DriverError>)

  datatype Observation = Observation(online: bool, now: Time)

  datatype Report = Report(state: RuntimeState, completedAt: Option<Time>)

  /** The shared entry, the threads inside it, and the history: driver calls, code submissions
      (accepted or not), observations, and states reported to callers. */
  datatype State = State(
    view: View, books: Books, code: Codes, threads: map<Tid, Phase>,
    calls: seq<Call>, codes: seq<bool>, observed: seq<Observation>, reports: seq<Report>)

  datatype Event =
    | ActBegin(tid: Tid, id: ActionId, confirmed: bool, now: Time)
    | ActSnapshot(tid: Tid, answer: Option<Snapshot>)
    | ActReserve(tid: Tid, now: Time)
    | ActReturn(tid: Tid, err: DriverError)
    | ActRelease(tid: Tid)
    | ActLeave(tid: Tid)
    | CodeBegin(tid: Tid, now: Time)
    | CodeSnapshot(tid: Tid, answer: Option<Snapshot>)
    | CodeReturn(tid: Tid, accepted: bool)
    | CodeLeave(tid: Tid)
    | MonitorTick(now: Time)
    | MonitorObserve(snapshot: Snapshot, now: Time)
    | StateObserve(snapshot: Snapshot, now: Time)
    | ImageObserve(snapshot: Snapshot, now: Time)
    | Read(now: Time)          // Status, the page, and the early answers of the state handler
    | Close

  predicate Gone(v: View, now: Time) {
    v.closed || now > v.expiresAt || v.completedAt.Some?
  }

  /** `markCompletedLocked` */
  function MarkCompleted(v: View, now: Time): View {
    v.(state := Online, completedAt := if v.completedAt.None? then Some(now) else v.completedAt)
  }

  /** `observeAuthSnapshotLocked` */
  function Observe(v: View, state: RuntimeState, now: Time): View {
    if state != Online then v.(candidateSince := ZeroTime, observations := 0, state := state)
    else
      var since := if v.candidateSince == ZeroTime then now else v.candidateSince;
      var n := if v.candidateSince == ZeroTime then 1 else v.observations + 1;
      var v' := v.(candidateSince := since, observations := n);
      if n >= MinimumObservations && now - since >= StabilityWindow then MarkCompleted(v', now)
      else v'.(state := Starting)
  }

  /** The monitor's first section: completion first, then expiry. */
  function Ticked(v: View, now: Time): View {
    if v.completedAt.Some? then MarkCompleted(v, now)
    else if now > v.expiresAt then v.(state := Offline)
    else v
  }

  function Count(actions: seq<Action>, id: ActionId): nat {
    if actions == [] then 0 else (if actions[0].id == id then 1 else 0) + Count(actions[1..], id)
  }

  function KeyCount(actions: seq<Action>, key: ReplayKey): nat {
    if actions == [] then 0 else (if actions[0].key == Some(key) then 1 else 0) + KeyCount(actions[1..], key)
  }

  function Find(actions: seq<Action>, id: ActionId): Option<Action> {
    if actions == [] then None else if actions[0].id == id then Some(actions[0]) else Find(actions[1..], id)
  }

  /** The replay key of `id` when the snapshot advertises the action and its key exactly once. */
  function Choose(snapshot: Option<Snapshot>, id: ActionId): Option<ReplayKey> {
    if snapshot.None? || snapshot.value.state != AuthRequired || Count(snapshot.value.actions, id) != 1 then None
    else
      var found := Find(snapshot.value.actions, id);
      if found.None? || found.value.key.None? || KeyCount(snapshot.value.actions, found.value.key.value) != 1 then None
      else found.value.key
  }

  function Attempts(attempts: map<ActionId, nat>, id: ActionId): nat {
    if id in attempts then attempts[id] else 0
  }

  predicate Untried(b: Books, id: ActionId, key: ReplayKey) {
    id !in b.performedActions && key !in b.performedKeys
  }

  predicate WithinBudget(b: Books, id: ActionId) {
    Attempts(b.attempts, id) < MaxAttemptsPerAction && b.total < MaxAttemptsPerChallenge
  }

  predicate MayCall(v: View, b: Books, id: ActionId, key: ReplayKey, now: Time) {
    !Gone(v, now) && Untried(b, id, key) && WithinBudget(b, id)
  }

  /** Attempt accounting and both tombstones, before the driver is entered. */
  function ReserveCall(b: Books, id: ActionId, key: ReplayKey): Books {
    b.(attempts := b.attempts[id := Attempts(b.attempts, id) + 1], total := b.total + 1,
       performedActions := b.performedActions + {id}, performedKeys := b.performedKeys + {key})
  }

  function ReleaseCall(b: Books, id: ActionId, key: ReplayKey): Books {
    b.(performedActions := b.performedActions - {id}, performedKeys := b.performedKeys - {key})
  }

  /** Whether a step can happen now; refused requests change nothing and are skipped. */
  predicate Enabled(s: State, e: Event) {
    match e
    case ActBegin(tid, id, confirmed, now) =>
      tid !in s.threads && !Gone(s.view, now) && !s.books.inFlight && id !in s.books.performedActions && confirmed
    case ActSnapshot(tid, _) => tid in s.threads && s.threads[tid].Gated?
    case ActReserve(tid, _) => tid in s.threads && s.threads[tid].Chosen?
    case ActReturn(tid, _) => tid in s.threads && s.threads[tid].Calling?
    case ActRelease(tid) => tid in s.threads && s.threads[tid].Releasing?
    case ActLeave(tid) => tid in s.threads && s.threads[tid].Leaving?
    case CodeBegin(tid, now) => tid !in s.threads && !Gone(s.view, now) && !s.code.inFlight && !s.code.submitted
    case CodeSnapshot(tid, _) => tid in s.threads && s.threads[tid].CodeGated?
    case CodeReturn(tid, _) => tid in s.threads && s.threads[tid].CodeCalling?
    case CodeLeave(tid) => tid in s.threads && s.threads[tid].CodeLeaving?
    case MonitorTick(_) => !s.view.closed
    case MonitorObserve(_, _) => !s.view.closed
    case StateObserve(_, now) => Readable(s.view, now)
    case ImageObserve(_, _) => true
    case Read(now) => Readable(s.view, now)
    case Close => true
  }

  /** A reader gets an answer: not closed, and completed or not yet expired. */
  predicate Readable(v: View, now: Time) {
    !v.closed && (v.completedAt.Some? || now <= v.expiresAt)
  }

  function Step(s: State, e: Event): State {
    if Enabled(s, e) then Next(s, e) else s
  }

  /** The last call of the history gets its answer. */
  function Settle(calls: seq<Call>, err: DriverError): seq<Call> {
    if calls == [] then [] else calls[|calls| - 1 := calls[|calls| - 1].(answer := Some(err))]
  }

  function Told(reports: seq<Report>, v: View): seq<Report> {
    reports + [Report(v.state, v.completedAt)]
  }

  function Seen(observed: seq<Observation>, snapshot: Snapshot, now: Time): seq<Observation> {
    observed + [Observation(snapshot.state == Online, now)]
  }

  function Next(s: State, e: Event): State
    requires Enabled(s, e)
  {
    match e
    case ActBegin(tid, id, _, _) =>
      s.(books := s.books.(inFlight := true), threads := s.threads[tid := Gated(id)])
    case ActSnapshot(tid, answer) =>
      var key := Choose(answer, s.threads[tid].id);
      s.(threads := s.threads[tid := if key.Some? then Chosen(s.threads[tid].id, key.value) else Leaving])
    case ActReserve(tid, now) =>
      var t := s.threads[tid];
      if !MayCall(s.view, s.books, t.id, t.key, now) then s.(threads := s.threads[tid := Leaving])
      else s.(books := ReserveCall(s.books, t.id, t.key), threads := s.threads[tid := Calling(t.id, t.key)],
              calls := s.calls + [Call(t.id, t.key, None)])
    case ActReturn(tid, err) =>
      var t := s.threads[tid];
      s.(threads := s.threads[tid := if DefinitivelyRejected(err) then Releasing(t.id, t.key) else Leaving],
         calls := Settle(s.calls, err))
    case ActRelease(tid) =>
      s.(books := ReleaseCall(s.books, s.threads[tid].id, s.threads[tid].key), threads := s.threads[tid := Leaving])
    case ActLeave(tid) => s.(books := s.books.(inFlight := false), threads := s.threads - {tid})
    case CodeBegin(tid, _) =>
      var n := s.code.attempts + 1;
      if n > MaxCodeAttempts then s.(code := s.code.(attempts := n))
      else s.(code := s.code.(attempts := n, inFlight := true), threads := s.threads[tid := CodeGated])
    case CodeSnapshot(tid, answer) =>
      s.(threads := s.threads[tid := if answer.Some? && answer.value.state == AuthRequired && answer.value.sms
                                     then CodeCalling else CodeLeaving(false)])
    case CodeReturn(tid, accepted) =>
      s.(threads := s.threads[tid := CodeLeaving(accepted)], codes := s.codes + [accepted])
    case CodeLeave(tid) =>
      s.(code := s.code.(inFlight := false, submitted := s.code.submitted || s.threads[tid].accepted),
         threads := s.threads - {tid})
    case MonitorTick(now) => s.(view := Ticked(s.view, now))
    case MonitorObserve(snapshot, now) =>
      if s.view.completedAt.Some? || now > s.view.expiresAt then s.(view := Ticked(s.view, now))
      else s.(view := Observe(s.view, snapshot.state, now), observed := Seen(s.observed, snapshot, now))
    case StateObserve(snapshot, now) =>
      if s.view.completedAt.Some? then
        s.(view := MarkCompleted(s.view, now), reports := Told(s.reports, MarkCompleted(s.view, now)))
      else if s.books.inFlight then s.(reports := Told(s.reports, s.view))
      else
        s.(view := Observe(s.view, snapshot.state, now), observed := Seen(s.observed, snapshot, now),
           reports := Told(s.reports, Observe(s.view, snapshot.state, now)))
    // The image handler observes even after completion.
    case ImageObserve(snapshot, now) =>
      s.(view := Observe(s.view, snapshot.state, now), observed := Seen(s.observed, snapshot, now))
    case Read(now) =>
      var v := if s.view.completedAt.Some? then MarkCompleted(s.view, now) else s.view;
      s.(view := v, reports := Told(s.reports, v))
    case Close => s.(view := s.view.(closed := true))
  }

  function Run(s: State, es: seq<Event>): State
    decreases |es|
  {
    if es == [] then s else Run(Step(s, es[0]), es[1..])
  }

  /** `Begin`: the first snapshot is already an observation. */
  function Begin(snapshot: Snapshot, now: Time, expiresAt: Time): State {
    State(Observe(View(snapshot.state, None, expiresAt, false, ZeroTime, 0), snapshot.state, now),
          Books(map[], 0, false, {}, {}), Codes(0, false, false), map[], [], [], Seen([], snapshot, now), [])
  }
}
