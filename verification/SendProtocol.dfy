/** The send transaction protocol as a machine over lock-delimited steps.  A run is any
    sequence of events: prepares, reaper sweeps, the steps of `CommitSend`, the WeChat
    driver's memo layer, driver restarts, account registration and removal, and daemon
    crashes, which may fall between any two steps.  An event that is not enabled leaves
    the state alone, so every event sequence is a run. */
module SendProtocol {
  import opened SendJournal

  type AccountId = nat
  type InstanceId = nat
  // Nanoseconds since the zero time, which lies before every clock reading.
  type Time = nat

  const TransactionTtl: Time := 300_000_000_000

  /** The result stored by the reservation itself. */
  const Provisional := SendResult(0, false, true, DurablyReserved)

  datatype Prepared = Prepared(account: AccountId, hash: Digest, digest: Digest, expiresAt: Time, committing: bool)

  datatype Memo = Memo(digest: Digest, result: SendResult, failed: bool)

  datatype Driver = Driver(account: AccountId, memos: map<Key, Memo>)

  /** How a database call ended: an error may be reported before or after its effect. */
  datatype Io = Done | FailedBefore | FailedAfter

  /** What the backend did with one dispatched send. */
  datatype BackendEnd = BackendError | Confirmed(messageId: nat) | Unconfirmed

  datatype Commit = Commit(txn: TxnId, key: Key, prepared: Prepared)

  /** Program counter of the one `CommitSend` that holds sendMu. */
  datatype Pc =
    | Idle
    | Admitted(c: Commit)                                         // marked Committing
    | Vetted(c: Commit)                                           // journal consulted: no row
    | Bound(c: Commit, inst: InstanceId)                          // driver instance resolved
    | Reserved(c: Commit, inst: InstanceId)                       // row in_flight, driver not entered
    | InDriver(c: Commit, inst: InstanceId)                       // operationMu held, memo missed
    | Dispatched(c: Commit, inst: InstanceId)                     // backend.Send invoked
    | Returned(c: Commit, result: SendResult, failed: bool)       // driver.Send returned
    | Settled(c: Commit, outcome: Outcome, consume: bool)         // outcome known, transaction not yet released

  datatype Outcome =
    | Sent(result: SendResult)
    | Uncertain(result: SendResult)
    | Conflict
    | NotFound
    | Inactive
    | Rejected
    | Unavailable
    | BadRequest

  datatype Reply = Reply(txn: TxnId, key: Key, outcome: Outcome)

  /** One invocation of backend.Send. */
  datatype Call = Call(account: AccountId, key: Key, txn: TxnId)

  /** `journals` is durable; `transactions`, `pc`, `drivers` and `active` are lost in a crash.
      `issued`, `retired`, `calls` and `replies` record history. */
  datatype State = State(
    journals: map<AccountId, Journal>,
    transactions: map<TxnId, Prepared>,
    pc: Pc,
    drivers: map<InstanceId, Driver>,
    active: map<AccountId, InstanceId>,
    issued: map<TxnId, AccountId>,
    retired: set<AccountId>,
    calls: seq<Call>,
    replies: seq<Reply>)

  const Init := State(map[], map[], Idle, map[], map[], map[], {}, [], [])

  datatype Event =
    | Register(account: AccountId)
    | Remove(account: AccountId)
    | Start(account: AccountId, inst: InstanceId)
    | Stop(inst: InstanceId)
    | Prepare(txn: TxnId, account: AccountId, hash: Digest, digest: Digest, now: Time, stuck: set<TxnId>)
    | Reap(now: Time, stuck: set<TxnId>)
    | Admit(txn: TxnId, key: Key, now: Time, removed: bool, order: seq<AccountId>, unreadable: set<AccountId>)
    | Vet(fault: bool, keyFault: bool)
    | Bind
    | ReserveRow(io: Io)
    | EnterDriver(refused: bool)
    | DriverRefuses
    | Dispatch
    | BackendReturns(end: BackendEnd)
    | Settle(io: Io)
    | Finish(now: Time, removed: bool, removedAgain: bool)
    | Crash

  /** `sendOutcome`: anything not verified, or marked uncertain, is reported as uncertain. */
  function Report(r: SendResult): Outcome {
    if r.uncertain || !r.verified then Uncertain(r) else Sent(r)
  }

  /** `findCommittedSend`: scan the accounts in list order until one holds the transaction. */
  function FindCommitted(order: seq<AccountId>, journals: map<AccountId, Journal>, unreadable: set<AccountId>,
                         t: TxnId, k: Key): Outcome
  {
    if order == [] then NotFound
    else if order[0] in unreadable || order[0] !in journals then Unavailable
    else if t in journals[order[0]].byTxn then
      var j := journals[order[0]];
      if j.byTxn[t] != k then Conflict else Report(Stored(j, k))
    else FindCommitted(order[1..], journals, unreadable, t, k)
  }

  function Pruned(transactions: map<TxnId, Prepared>, now: Time, stuck: set<TxnId>): map<TxnId, Prepared> {
    map t | t in transactions &&
            (transactions[t].committing || now < transactions[t].expiresAt || t in stuck) :: transactions[t]
  }

  /** After its commit ends, a transaction loses its mark and is dropped when it has expired. */
  function Released(transactions: map<TxnId, Prepared>, t: TxnId, now: Time, removed: bool): map<TxnId, Prepared> {
    if t !in transactions then transactions
    else if now >= transactions[t].expiresAt && removed then transactions - {t}
    else transactions[t := transactions[t].(committing := false)]
  }

  /** `cleanupTransaction`: dropped, or expired on the spot when its staging cannot be removed. */
  function CleanedUp(transactions: map<TxnId, Prepared>, t: TxnId, removed: bool): map<TxnId, Prepared> {
    if t !in transactions then transactions
    else if removed then transactions - {t}
    else transactions[t := transactions[t].(expiresAt := 0)]
  }

  /** What `CommitSend` stores for a driver result that is not a clean refusal. */
  function Final(r: SendResult): SendResult {
    if r.verified then r
    else r.(uncertain := true, detail := if r.detail.NoDetail? then ClientUnverified else r.detail)
  }

  /** What the driver reports and remembers for each way the backend can end. */
  function EndResult(end: BackendEnd): SendResult {
    match end
    case BackendError => SendResult(0, false, true, BackendInterrupted)
    case Confirmed(id) => SendResult(id, true, false, NoDetail)
    case Unconfirmed => SendResult(0, false, true, IndexUnconfirmed)
  }

  predicate Busy(pc: Pc, i: InstanceId) {
    (pc.InDriver? || pc.Dispatched?) && pc.inst == i
  }

  /** A commit is admitted only while its transaction is in memory and unexpired. */
  predicate Live(transactions: map<TxnId, Prepared>, t: TxnId, now: Time) {
    t in transactions && now < transactions[t].expiresAt
  }

  /** Where consulting the journal leads. */
  function VetPc(journals: map<AccountId, Journal>, c: Commit, fault: bool, keyFault: bool): Pc {
    if c.prepared.account !in journals || fault then Settled(c, Unavailable, false)
    else
      var j := journals[c.prepared.account];
      if c.txn in j.byTxn then
        Settled(c, if j.byTxn[c.txn] != c.key then Conflict else Report(Stored(j, c.key)), true)
      else if keyFault then Settled(c, Conflict, false)
      else if c.key !in j.rows then Vetted(c)
      else if j.rows[c.key].hash != c.prepared.hash then Settled(c, Conflict, false)
      else Settled(c, Report(Stored(j, c.key)), true)
  }

  /** Whether an operation on the journal of `c`'s account takes effect. */
  predicate Effective(journals: map<AccountId, Journal>, c: Commit, io: Io) {
    c.prepared.account in journals && !io.FailedBefore?
  }

  function ReserveIn(journals: map<AccountId, Journal>, c: Commit, io: Io): map<AccountId, Journal> {
    var a := c.prepared.account;
    if !Effective(journals, c, io) then journals
    else journals[a := Reserve(journals[a], c.key, c.txn, c.prepared.hash, Provisional)]
  }

  function ReservePc(journals: map<AccountId, Journal>, c: Commit, i: InstanceId, io: Io): Pc {
    if Effective(journals, c, io) && io.Done? && CanReserve(journals[c.prepared.account], c.key, c.txn)
    then Reserved(c, i) else Settled(c, Conflict, false)
  }

  /** `Driver.Send` up to and including the memo lookup.  The checks at the door, whether the driver
      is started among them, are made before its mutex is taken, so the driver may have stopped in
      between: `refused` is what they said, and says nothing about the driver now. */
  function EnterPc(drivers: map<InstanceId, Driver>, c: Commit, i: InstanceId, refused: bool): Pc {
    if refused || i !in drivers then Returned(c, NoResult, true)
    else if c.key !in drivers[i].memos then InDriver(c, i)
    else
      var m := drivers[i].memos[c.key];
      if m.digest != c.prepared.digest then Returned(c, NoResult, true) else Returned(c, m.result, m.failed)
  }

  function Remember(drivers: map<InstanceId, Driver>, i: InstanceId, c: Commit, m: Memo): map<InstanceId, Driver> {
    if i !in drivers then drivers else drivers[i := drivers[i].(memos := drivers[i].memos[c.key := m])]
  }

  /** The driver refused before any send action. */
  predicate CleanRefusal(r: SendResult, failed: bool) {
    failed && !r.uncertain
  }

  function SettleIn(journals: map<AccountId, Journal>, c: Commit, r: SendResult, failed: bool, io: Io):
    map<AccountId, Journal>
  {
    var a := c.prepared.account;
    if !Effective(journals, c, io) then journals
    else if CleanRefusal(r, failed) then journals[a := Delete(journals[a], c.key, c.txn, c.prepared.hash)]
    else journals[a := Finalize(journals[a], c.key, c.txn, c.prepared.hash, Final(r))]
  }

  function SettlePc(journals: map<AccountId, Journal>, c: Commit, r: SendResult, failed: bool, io: Io): Pc {
    if !(Effective(journals, c, io) && io.Done? &&
         Holds(journals[c.prepared.account], c.key, c.txn, c.prepared.hash))
    then Settled(c, Report(Provisional), true)
    else if CleanRefusal(r, failed) then Settled(c, Rejected, false)
    else Settled(c, Report(Final(r)), true)
  }

  function FinishIn(transactions: map<TxnId, Prepared>, pc: Pc, now: Time, removed: bool, removedAgain: bool):
    map<TxnId, Prepared>
    requires pc.Settled?
  {
    var cleaned := if pc.consume then CleanedUp(transactions, pc.c.txn, removed) else transactions;
    Released(cleaned, pc.c.txn, now, removedAgain)
  }

  /** Whether an event can happen now; any other event is skipped. */
  predicate Enabled(s: State, e: Event) {
    match e
    case Register(a) => a !in s.journals && a !in s.retired
    // deleteMu is held exclusively, so no commit is running; an active account is refused.
    case Remove(a) => a in s.journals && a !in s.active && s.pc.Idle?
    case Start(a, i) => a in s.journals && a !in s.active && i !in s.drivers
    // The driver's operationMu is free.
    case Stop(i) => i in s.drivers && !Busy(s.pc, i)
    case Prepare(t, a, _, _, _, _) => a in s.active && t !in s.issued
    case Reap(_, _) => true
    // sendMu is free; the scan sees every registered account.
    case Admit(_, _, _, _, order, _) => s.pc.Idle? && (set a | a in order) == s.journals.Keys
    case Vet(_, _) => s.pc.Admitted?
    case Bind => s.pc.Vetted?
    case ReserveRow(_) => s.pc.Bound?
    case EnterDriver(_) => s.pc.Reserved?
    case DriverRefuses => s.pc.InDriver?
    case Dispatch => s.pc.InDriver?
    case BackendReturns(_) => s.pc.Dispatched?
    case Settle(_) => s.pc.Returned?
    case Finish(_, _, _) => s.pc.Settled?
    case Crash => true
  }

  function Step(s: State, e: Event): State {
    if Enabled(s, e) then Next(s, e) else s
  }

  /** Each case is one critical section or one call out of the daemon. */
  function Next(s: State, e: Event): State
    requires Enabled(s, e)
  {
    match e
    case Register(a) => s.(journals := s.journals[a := Empty])
    case Remove(a) => s.(journals := s.journals - {a}, retired := s.retired + {a})
    case Start(a, i) => s.(drivers := s.drivers[i := Driver(a, map[])], active := s.active[a := i])
    case Stop(i) =>
      s.(drivers := s.drivers[i := Driver(s.drivers[i].account, map[])],
         active := map a | a in s.active && s.active[a] != i :: s.active[a])
    case Prepare(t, a, h, d, now, stuck) =>
      s.(transactions := Pruned(s.transactions, now, stuck)[t := Prepared(a, h, d, now + TransactionTtl, false)],
         issued := s.issued[t := a])
    case Reap(now, stuck) => s.(transactions := Pruned(s.transactions, now, stuck))
    case Admit(t, k, now, removed, order, unreadable) =>
      if Live(s.transactions, t, now) then
        var p := s.transactions[t].(committing := true);
        s.(transactions := s.transactions[t := p], pc := Admitted(Commit(t, k, p)))
      else
        s.(transactions := if removed then s.transactions - {t} else s.transactions,
           replies := s.replies + [Reply(t, k, FindCommitted(order, s.journals, unreadable, t, k))])
    case Vet(fault, keyFault) => s.(pc := VetPc(s.journals, s.pc.c, fault, keyFault))
    case Bind =>
      var a := s.pc.c.prepared.account;
      s.(pc := if a in s.active then Bound(s.pc.c, s.active[a]) else Settled(s.pc.c, Inactive, false))
    case ReserveRow(io) =>
      s.(journals := ReserveIn(s.journals, s.pc.c, io), pc := ReservePc(s.journals, s.pc.c, s.pc.inst, io))
    case EnterDriver(refused) => s.(pc := EnterPc(s.drivers, s.pc.c, s.pc.inst, refused))
    case DriverRefuses => s.(pc := Returned(s.pc.c, NoResult, true))
    case Dispatch =>
      s.(pc := Dispatched(s.pc.c, s.pc.inst),
         calls := s.calls + [Call(s.pc.c.prepared.account, s.pc.c.key, s.pc.c.txn)])
    case BackendReturns(end) =>
      var m := Memo(s.pc.c.prepared.digest, EndResult(end), !end.Confirmed?);
      s.(pc := Returned(s.pc.c, m.result, m.failed), drivers := Remember(s.drivers, s.pc.inst, s.pc.c, m))
    case Settle(io) =>
      s.(journals := SettleIn(s.journals, s.pc.c, s.pc.result, s.pc.failed, io),
         pc := SettlePc(s.journals, s.pc.c, s.pc.result, s.pc.failed, io))
    case Finish(now, removed, removedAgain) =>
      s.(transactions := FinishIn(s.transactions, s.pc, now, removed, removedAgain), pc := Idle,
         replies := s.replies + [Reply(s.pc.c.txn, s.pc.c.key, s.pc.outcome)])
    case Crash => s.(transactions := map[], pc := Idle, drivers := map[], active := map[])
  }

  function Run(s: State, es: seq<Event>): State
    decreases |es|
  {
    if es == [] then s else Run(Step(s, es[0]), es[1..])
  }
}
