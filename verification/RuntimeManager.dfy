/** The runtime manager: per-platform operation locks, one active runtime per platform, ingest
    loops in generations, stops that time out or fail, repairs, restore, and shutdown.  A step is
    one critical section, one call out of the process, or the start or cancellation of a loop;
    reads that an operation's own lock protects are joined to the section that uses them. */
module RuntimeManager {

  type Id = nat          // account identifiers
  type Rid = nat         // runtime objects
  type Ticket = nat      // repair goroutines
  type Gen = nat         // generations of one runtime's ingest loop

  datatype Platform = WeChat | WeCom

  datatype Account = Account(platform: Platform, active: bool, deleting: bool)

  /** Who holds a runtime's ingest mutex. */
  datatype Mutex = Unlocked | Reader | Stopper

  /** `gen` is the generation of `runtime.done`; `alive` and `cancelled` are generations of loops. */
  datatype Runtime = Runtime(
    account: Id, platform: Platform, gen: Gen, alive: set<Gen>, cancelled: set<Gen>,
    mutex: Mutex, stopping: bool, stopped: bool)

  /** Where a `stopRuntime`, or what its caller does next, stands; `gen` is the loop's generation. */
  datatype StopPc =
    | Begun(gen: Gen)        // about to cancel the loop
    | Waiting(gen: Gen)      // for the loop to end
    | Drained(gen: Gen)      // the loop has ended
    | Holding(gen: Gen)      // the ingest mutex is held, the driver is being stopped
    | Emptying(gen: Gen)     // the driver is stopped, its slot not yet empty
    | Restarting(gen: Gen)   // the driver did not stop, the next loop not yet started

  /** What the holder of a platform's operation lock is doing. */
  datatype Op =
    | ActCheck(target: Id, restoring: bool)
    | ActStop(target: Id, restoring: bool, rid: Rid, pc: StopPc)
    | ActWrite(target: Id, restoring: bool)
    | ActStart(target: Id, restoring: bool)
    | ActLoop(target: Id, restoring: bool, rid: Rid)   // in its slot, the first loop not yet started
    | OffCheck(target: Id)
    | OffStop(target: Id, rid: Rid, pc: StopPc)
    | OffWrite(target: Id)

  datatype Repair = Repair(rid: Rid, gen: Gen)

  /** One driver read by ingest; `late` says that the driver had already been stopped. */
  datatype Read = Read(rid: Rid, late: bool)

  datatype State = State(
    accounts: map<Id, Account>,
    runtimes: map<Rid, Runtime>,
    active: map<Platform, Rid>,
    ops: map<Platform, Op>,
    repairs: map<Ticket, Repair>,
    drains: map<Rid, StopPc>,
    closed: bool,
    readLog: seq<Read>,
    issued: set<Id>)

  /** Steps of the operation that holds, or takes, the lock of a platform. */
  datatype OpEvent =
    | LockActivate(target: Id, restoring: bool)
    | CheckActivate(installed: bool)
    | WriteActivate(ok: bool)
    | StartDriver(ok: bool, rid: Rid, undoOk: bool)
    | StartLoop
    | LockDeactivate(target: Id)
    | CheckDeactivate
    | WriteDeactivate(ok: bool)

  /** Steps of a `stopRuntime`; only one under an operation starts ingest again when it fails. */
  datatype StopEvent =
    | StopCancel
    | StopDone
    | StopLock
    | StopTimeout(ticket: Ticket)
    | StopDriver(ok: bool)
    | StopEmpty
    | StopRestart

  datatype DrainEvent = DrainCancel | DrainDone | DrainLock | DrainTimeout | DrainDriver(ok: bool)

  datatype RegistryEvent = BeginDelete(target: Id, ok: bool) | AddAccount(id: Id, platform: Platform) | FinishDelete(id: Id)

  datatype IngestEvent = IngestEnter | IngestRead | IngestLeave | LoopExit(gen: Gen)

  datatype Event =
    | Operate(p: Platform, o: OpEvent)
    | Stop(p: Platform, x: StopEvent)
    | Repairs(ticket: Ticket)
    | Edit(g: RegistryEvent)
    | Shutdown
    | Drain(rid: Rid, d: DrainEvent)
    | Ingest(rid: Rid, i: IngestEvent)
    | Crash

  predicate Registered(accounts: map<Id, Account>, id: Id) {
    id in accounts && !accounts[id].deleting
  }

  predicate Stops(op: Op) {
    op.ActStop? || op.OffStop?
  }

  /** `accounts.Activate`: the target becomes the only active account of its platform. */
  function Activated(accounts: map<Id, Account>, target: Id): map<Id, Account>
    requires target in accounts
  {
    map id | id in accounts ::
      if id == target then accounts[id].(active := true)
      else if accounts[id].platform == accounts[target].platform then accounts[id].(active := false)
      else accounts[id]
  }

  function Deactivated(accounts: map<Id, Account>, target: Id): map<Id, Account> {
    if target in accounts then accounts[target := accounts[target].(active := false)] else accounts
  }

  /** `startIngest`: a new loop of the next generation. */
  function StartIngest(r: Runtime): Runtime {
    r.(gen := r.gen + 1, alive := r.alive + {r.gen + 1})
  }

  function Cancel(r: Runtime): Runtime {
    r.(cancelled := r.cancelled + {r.gen})
  }

  predicate OpEnabled(s: State, p: Platform, o: OpEvent) {
    match o
    case LockActivate(t, _) => p !in s.ops && Registered(s.accounts, t) && s.accounts[t].platform == p
    case CheckActivate(_) => p in s.ops && s.ops[p].ActCheck?
    case WriteActivate(_) => p in s.ops && s.ops[p].ActWrite?
    case StartDriver(_, rid, _) => p in s.ops && s.ops[p].ActStart? && rid !in s.runtimes
    case StartLoop => p in s.ops && s.ops[p].ActLoop? && s.ops[p].rid in s.runtimes
    case LockDeactivate(t) => p !in s.ops && Registered(s.accounts, t) && s.accounts[t].platform == p
    case CheckDeactivate => p in s.ops && s.ops[p].OffCheck?
    case WriteDeactivate(_) => p in s.ops && s.ops[p].OffWrite?
  }

  predicate Stopping(s: State, p: Platform) {
    p in s.ops && Stops(s.ops[p]) && s.ops[p].rid in s.runtimes
  }

  predicate StopEnabled(s: State, p: Platform, x: StopEvent)
    requires Stopping(s, p)
  {
    var r, pc := s.runtimes[s.ops[p].rid], s.ops[p].pc;
    match x
    case StopCancel => pc.Begun?
    // The loop that was captured has closed its done channel.
    case StopDone => pc.Waiting? && pc.gen !in r.alive
    case StopLock => pc.Drained? && r.mutex.Unlocked?
    case StopTimeout(ticket) => (pc.Waiting? || pc.Drained?) && ticket !in s.repairs
    case StopDriver(_) => pc.Holding?
    case StopEmpty => pc.Emptying?
    case StopRestart => pc.Restarting?
  }

  /** The repair goroutine saw its loop end and has the platform lock. */
  predicate RepairEnabled(s: State, ticket: Ticket) {
    && ticket in s.repairs && s.repairs[ticket].rid in s.runtimes
    && s.repairs[ticket].gen !in s.runtimes[s.repairs[ticket].rid].alive
    && s.runtimes[s.repairs[ticket].rid].platform !in s.ops
  }

  predicate EditEnabled(s: State, g: RegistryEvent) {
    match g
    case BeginDelete(t, _) => t in s.accounts && s.accounts[t].platform !in s.ops && !s.accounts[t].active
    case AddAccount(id, _) => id !in s.issued   // identifiers are fresh
    case FinishDelete(id) => id in s.accounts && s.accounts[id].deleting
  }

  predicate DrainEnabled(r: Runtime, pc: StopPc, d: DrainEvent) {
    match d
    case DrainCancel => pc.Begun?
    case DrainDone => pc.Waiting? && pc.gen !in r.alive
    case DrainLock => pc.Drained? && r.mutex.Unlocked?
    case DrainTimeout => pc.Waiting? || pc.Drained?
    case DrainDriver(_) => pc.Holding?
  }

  predicate IngestEnabled(r: Runtime, i: IngestEvent) {
    match i
    // A loop iteration or an explicit Sync; `stopping` is checked under the mutex.
    case IngestEnter => r.mutex.Unlocked? && !r.stopping
    case IngestRead => r.mutex.Reader?
    case IngestLeave => r.mutex.Reader?
    // A loop returns only after its context was cancelled.
    case LoopExit(gen) => gen in r.alive && gen in r.cancelled
  }

  predicate Enabled(s: State, e: Event) {
    match e
    case Operate(p, o) => OpEnabled(s, p, o)
    case Stop(p, x) => Stopping(s, p) && StopEnabled(s, p, x)
    case Repairs(ticket) => RepairEnabled(s, ticket)
    case Edit(g) => EditEnabled(s, g)
    case Shutdown => s.ops == map[] && !s.closed
    case Drain(rid, d) => rid in s.drains && rid in s.runtimes && DrainEnabled(s.runtimes[rid], s.drains[rid], d)
    case Ingest(rid, i) => rid in s.runtimes && IngestEnabled(s.runtimes[rid], i)
    case Crash => true
  }

  function Step(s: State, e: Event): State {
    if Enabled(s, e) then Next(s, e) else s
  }

  function WithPc(op: Op, pc: StopPc): Op
    requires Stops(op)
  {
    match op
    case ActStop(target, restoring, rid, _) => ActStop(target, restoring, rid, pc)
    case OffStop(target, rid, _) => OffStop(target, rid, pc)
  }

  /** What follows a successful stop: the slot is empty, the registry write comes next. */
  function AfterStop(op: Op): Op
    requires Stops(op)
  {
    match op
    case ActStop(target, restoring, _, _) => ActWrite(target, restoring)
    case OffStop(target, _, _) => OffWrite(target)
  }

  predicate Occupied(s: State, p: Platform) {
    p in s.active && s.active[p] in s.runtimes
  }

  /** What an operation goes on with, or that it is over and the lock released. */
  datatype Held = Released | Held(op: Op)

  function WithHeld(ops: map<Platform, Op>, p: Platform, h: Held): map<Platform, Op> {
    if h.Released? then ops - {p} else ops[p := h.op]
  }

  function AfterCheckActivate(s: State, p: Platform, t: Id, restoring: bool, installed: bool): Held {
    if !Registered(s.accounts, t) || (restoring && !s.accounts[t].active) || s.closed || !installed then Released
    else if !Occupied(s, p) then Held(ActWrite(t, restoring))
    else if s.runtimes[s.active[p]].account == t then Released
    else Held(ActStop(t, restoring, s.active[p], Begun(s.runtimes[s.active[p]].gen)))
  }

  function AfterCheckDeactivate(s: State, p: Platform, t: Id): Held {
    if !Registered(s.accounts, t) then Released
    else if Occupied(s, p) && s.runtimes[s.active[p]].account == t then
      Held(OffStop(t, s.active[p], Begun(s.runtimes[s.active[p]].gen)))
    else Held(OffWrite(t))
  }

  function OpHeld(s: State, p: Platform, o: OpEvent): Held
    requires OpEnabled(s, p, o)
  {
    match o
    case LockActivate(t, restoring) => Held(ActCheck(t, restoring))
    case CheckActivate(installed) => AfterCheckActivate(s, p, s.ops[p].target, s.ops[p].restoring, installed)
    case WriteActivate(ok) =>
      if ok && Registered(s.accounts, s.ops[p].target) then Held(ActStart(s.ops[p].target, s.ops[p].restoring))
      else Released
    case StartDriver(ok, rid, _) => if ok then Held(ActLoop(s.ops[p].target, s.ops[p].restoring, rid)) else Released
    case LockDeactivate(t) => Held(OffCheck(t))
    case CheckDeactivate => AfterCheckDeactivate(s, p, s.ops[p].target)
    case _ => Released
  }

  function OpAccounts(s: State, p: Platform, o: OpEvent): map<Id, Account>
    requires OpEnabled(s, p, o)
  {
    match o
    case WriteActivate(ok) =>
      if ok && Registered(s.accounts, s.ops[p].target) then Activated(s.accounts, s.ops[p].target) else s.accounts
    // An activation that fails undoes its registry write, unless it restores.
    case StartDriver(ok, _, undoOk) =>
      if !ok && !s.ops[p].restoring && undoOk then Deactivated(s.accounts, s.ops[p].target) else s.accounts
    case WriteDeactivate(ok) => if ok then Deactivated(s.accounts, s.ops[p].target) else s.accounts
    case _ => s.accounts
  }

  /** A runtime before its first loop. */
  function NewRuntime(t: Id, p: Platform): Runtime {
    Runtime(t, p, 0, {}, {}, Unlocked, false, false)
  }

  /** A successful start adds a runtime; its first loop follows. */
  function OpRuntimes(s: State, p: Platform, o: OpEvent): map<Rid, Runtime>
    requires OpEnabled(s, p, o)
  {
    match o
    case StartDriver(ok, rid, _) => if ok then s.runtimes[rid := NewRuntime(s.ops[p].target, p)] else s.runtimes
    case StartLoop => s.runtimes[s.ops[p].rid := StartIngest(s.runtimes[s.ops[p].rid])]
    case _ => s.runtimes
  }

  function OpNext(s: State, p: Platform, o: OpEvent): State
    requires OpEnabled(s, p, o)
  {
    s.(accounts := OpAccounts(s, p, o), runtimes := OpRuntimes(s, p, o),
       active := if o.StartDriver? && o.ok then s.active[p := o.rid] else s.active,
       ops := WithHeld(s.ops, p, OpHeld(s, p, o)))
  }

  function Seized(r: Runtime): Runtime {
    r.(mutex := Stopper, stopping := true)
  }

  function StopHeld(op: Op, x: StopEvent): Held
    requires Stops(op)
  {
    match x
    case StopCancel => Held(WithPc(op, Waiting(op.pc.gen)))
    case StopDone => Held(WithPc(op, Drained(op.pc.gen)))
    case StopLock => Held(WithPc(op, Holding(op.pc.gen)))
    case StopTimeout(_) => Released
    case StopDriver(ok) => Held(WithPc(op, if ok then Emptying(op.pc.gen) else Restarting(op.pc.gen)))
    case StopEmpty => Held(AfterStop(op))
    case StopRestart => Released
  }

  function Stopped(r: Runtime, x: StopEvent): Runtime {
    match x
    case StopCancel => Cancel(r)
    case StopLock => Seized(r)
    case StopDriver(ok) => if ok then r.(mutex := Unlocked, stopped := true) else r.(mutex := Unlocked, stopping := false)
    case StopRestart => StartIngest(r)
    case _ => r
  }

  /** The slot is emptied if it still holds that runtime. */
  function Emptied(active: map<Platform, Rid>, p: Platform, rid: Rid): map<Platform, Rid> {
    if p in active && active[p] == rid then active - {p} else active
  }

  function StopNext(s: State, p: Platform, x: StopEvent): State
    requires Stopping(s, p) && StopEnabled(s, p, x)
  {
    var rid := s.ops[p].rid;
    s.(runtimes := s.runtimes[rid := Stopped(s.runtimes[rid], x)],
       active := if x.StopEmpty? then Emptied(s.active, p, rid) else s.active,
       ops := WithHeld(s.ops, p, StopHeld(s.ops[p], x)),
       repairs := if x.StopTimeout? then s.repairs[x.ticket := Repair(rid, s.ops[p].pc.gen)] else s.repairs)
  }

  function RepairNext(s: State, ticket: Ticket): (s': State)
    requires RepairEnabled(s, ticket)
    ensures s'.ops == s.ops && s'.accounts == s.accounts && s'.active == s.active
  {
    var rid := s.repairs[ticket].rid;
    var r := s.runtimes[rid];
    if !Registered(s.accounts, r.account) || !s.accounts[r.account].active || s.closed
       || r.platform !in s.active || s.active[r.platform] != rid || r.gen != s.repairs[ticket].gen
    then s.(repairs := s.repairs - {ticket})
    else s.(runtimes := s.runtimes[rid := StartIngest(r)], repairs := s.repairs - {ticket})
  }

  function EditNext(s: State, g: RegistryEvent): (s': State)
    requires EditEnabled(s, g)
    ensures s'.ops == s.ops && s'.active == s.active && s'.runtimes == s.runtimes
  {
    match g
    case BeginDelete(t, ok) =>
      if ok then s.(accounts := s.accounts[t := s.accounts[t].(deleting := true, active := false)]) else s
    case AddAccount(id, p) => s.(accounts := s.accounts[id := Account(p, false, false)], issued := s.issued + {id})
    case FinishDelete(id) => s.(accounts := s.accounts - {id})
  }

  function ShutdownNext(s: State): (s': State)
    ensures s'.ops == s.ops && s'.accounts == s.accounts && s'.runtimes == s.runtimes
  {
    s.(closed := true, active := map[],
       drains := map rid | rid in s.runtimes && rid in s.active.Values :: Begun(s.runtimes[rid].gen))
  }

  /** A stop under Shutdown never starts ingest again, and a failed one leaves `stopping` set. */
  function DrainNext(s: State, rid: Rid, d: DrainEvent): (s': State)
    requires rid in s.drains && rid in s.runtimes
    ensures s'.ops == s.ops && s'.accounts == s.accounts && s'.active == s.active
  {
    var pc, r := s.drains[rid], s.runtimes[rid];
    match d
    case DrainCancel => s.(drains := s.drains[rid := Waiting(pc.gen)], runtimes := s.runtimes[rid := Cancel(r)])
    case DrainDone => s.(drains := s.drains[rid := Drained(pc.gen)])
    case DrainLock => s.(drains := s.drains[rid := Holding(pc.gen)], runtimes := s.runtimes[rid := Seized(r)])
    case DrainTimeout => s.(drains := s.drains - {rid})
    case DrainDriver(ok) =>
      s.(drains := s.drains - {rid}, runtimes := s.runtimes[rid := r.(mutex := Unlocked, stopped := ok)])
  }

  function IngestNext(r: Runtime, i: IngestEvent): Runtime {
    match i
    case IngestEnter => r.(mutex := Reader)
    case IngestRead => r
    case IngestLeave => r.(mutex := Unlocked)
    case LoopExit(gen) => r.(alive := r.alive - {gen})
  }

  function Next(s: State, e: Event): State
    requires Enabled(s, e)
  {
    match e
    case Operate(p, o) => OpNext(s, p, o)
    case Stop(p, x) => StopNext(s, p, x)
    case Repairs(ticket) => RepairNext(s, ticket)
    case Edit(g) => EditNext(s, g)
    case Shutdown => ShutdownNext(s)
    case Drain(rid, d) => DrainNext(s, rid, d)
    case Ingest(rid, i) =>
      s.(runtimes := s.runtimes[rid := IngestNext(s.runtimes[rid], i)],
         readLog := if i.IngestRead? then s.readLog + [Read(rid, s.runtimes[rid].stopped)] else s.readLog)
    // The daemon restarts: only the registry survives.
    case Crash => Boot(s.accounts).(readLog := s.readLog, issued := s.issued)
  }

  function Run(s: State, es: seq<Event>): State
    decreases |es|
  {
    if es == [] then s else Run(Step(s, es[0]), es[1..])
  }

  /** A daemon that has just opened the registry. */
  function Boot(accounts: map<Id, Account>): State {
    State(accounts, map[], map[], map[], map[], map[], false, [], accounts.Keys)
  }
}
