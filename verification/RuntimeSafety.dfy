/** What every run of the runtime manager keeps. */
module RuntimeSafety {
  import opened RuntimeManager

  /** One runtime by itself: at most its newest loop is alive, and nobody reads a stopping driver. */
  ghost predicate Healthy(r: Runtime) {
    && (r.mutex.Reader? ==> !r.stopping)
    && (r.stopped ==> r.stopping)
    && r.alive <= {r.gen}
    && (forall g :: g in r.cancelled ==> g <= r.gen)
  }

  /** Ingest of an active runtime goes on: its loop runs, or a repair will start the next one. */
  ghost predicate Served(repairs: map<Ticket, Repair>, rid: Rid, r: Runtime) {
    || (r.gen in r.alive && r.gen !in r.cancelled)
    || (exists t :: t in repairs && repairs[t] == Repair(rid, r.gen))
  }

  /** Nobody is stopping the driver. */
  predicate Quiet(r: Runtime) {
    !r.stopping && !r.stopped && !r.mutex.Stopper?
  }

  /** A stop in progress: the loop it captured is still the newest one, and the driver is stopped
      exactly when the slot is about to be emptied. */
  predicate StopOk(r: Runtime, pc: StopPc) {
    && pc.gen == r.gen
    && (pc.Begun? || pc.Waiting? || r.gen !in r.alive)
    && (pc.Waiting? || pc.Drained? || pc.Holding? ==> r.gen in r.cancelled)
    && (match pc
        case Holding(_) => r.stopping && !r.stopped && r.mutex.Stopper?
        case Emptying(_) => r.stopping && r.stopped && !r.mutex.Stopper?
        case _ => Quiet(r))
  }

  predicate ServingOn(accounts: map<Id, Account>, id: Id, p: Platform) {
    Registered(accounts, id) && accounts[id].platform == p
  }

  /** The runtime in the slot of `p` belongs to an active account of that platform. */
  predicate SlotOk(accounts: map<Id, Account>, r: Runtime, p: Platform) {
    r.platform == p && ServingOn(accounts, r.account, p) && accounts[r.account].active
  }

  /** The lock holder of `p` has stopped the driver and is about to empty the slot. */
  predicate AboutToEmpty(ops: map<Platform, Op>, p: Platform) {
    p in ops && Stops(ops[p]) && ops[p].pc.Emptying?
  }

  /** What the holder of the lock of `p` may rely on, apart from the runtime in the slot. */
  predicate OpOk(accounts: map<Id, Account>, issued: set<Id>, closed: bool, p: Platform, op: Op) {
    && op.target in issued
    && (op.target in accounts ==> accounts[op.target].platform == p)
    && (!op.ActCheck? && !op.OffCheck? ==> Registered(accounts, op.target))
    && (op.ActStop? || op.ActWrite? || op.ActStart? || op.ActLoop? ==>
          !closed && (op.restoring ==> Registered(accounts, op.target) && accounts[op.target].active))
    && (op.ActStart? || op.ActLoop? ==> Registered(accounts, op.target) && accounts[op.target].active)
  }

  /** How the operation on `p` and the runtime in its slot fit together. */
  ghost predicate Fits(repairs: map<Ticket, Repair>, ops: map<Platform, Op>, p: Platform, rid: Rid, r: Runtime) {
    if p in ops && Stops(ops[p]) then
      ops[p].rid == rid && StopOk(r, ops[p].pc) && (ops[p].OffStop? <==> r.account == ops[p].target)
    else if p in ops && ops[p].ActLoop? then
      ops[p].rid == rid && r.account == ops[p].target && r.alive == {} && Quiet(r)
    else
      && Served(repairs, rid, r) && Quiet(r)
      && (p in ops ==> !ops[p].ActWrite? && !ops[p].ActStart? && (ops[p].OffWrite? ==> r.account != ops[p].target))
  }

  ghost predicate Platformed(
    accounts: map<Id, Account>, runtimes: map<Rid, Runtime>, active: map<Platform, Rid>, ops: map<Platform, Op>,
    repairs: map<Ticket, Repair>, p: Platform)
  {
    if p in active then
      && active[p] in runtimes && SlotOk(accounts, runtimes[active[p]], p)
      && Fits(repairs, ops, p, active[p], runtimes[active[p]])
    else p in ops ==> !Stops(ops[p]) && !ops[p].ActLoop?
  }

  ghost predicate AllHealthy(runtimes: map<Rid, Runtime>) {
    forall rid :: rid in runtimes ==> Healthy(runtimes[rid])
  }

  ghost predicate DrainsOk(runtimes: map<Rid, Runtime>, drains: map<Rid, StopPc>) {
    forall rid :: rid in drains ==> rid in runtimes && StopOk(runtimes[rid], drains[rid]) && !drains[rid].Emptying?
  }

  ghost predicate PlatInv(s: State, p: Platform) {
    && (p in s.ops ==> OpOk(s.accounts, s.issued, s.closed, p, s.ops[p]))
    && Platformed(s.accounts, s.runtimes, s.active, s.ops, s.repairs, p)
  }

  ghost predicate Inv(s: State) {
    && s.accounts.Keys <= s.issued
    && AllHealthy(s.runtimes)
    && PlatInv(s, WeChat) && PlatInv(s, WeCom)
    && DrainsOk(s.runtimes, s.drains)
    && (s.closed ==> s.active == map[])
    && (!s.closed ==> s.drains == map[])
  }

  lemma AnyPlatform(s: State, p: Platform)
    requires Inv(s)
    ensures PlatInv(s, p)
  {
    match p
    case WeChat =>
    case WeCom =>
  }

  predicate SameOp(ops: map<Platform, Op>, ops': map<Platform, Op>, q: Platform) {
    (q in ops <==> q in ops') && (q in ops ==> ops'[q] == ops[q])
  }

  predicate SameSlot(
    runtimes: map<Rid, Runtime>, runtimes': map<Rid, Runtime>, active: map<Platform, Rid>, active': map<Platform, Rid>,
    q: Platform)
  {
    && (q in active <==> q in active')
    && (q in active ==>
          && active'[q] == active[q] && active[q] in runtimes && active[q] in runtimes'
          && runtimes'[active[q]] == runtimes[active[q]])
  }

  ghost predicate SameRepairs(repairs: map<Ticket, Repair>, repairs': map<Ticket, Repair>, rid: Rid) {
    forall t :: t in repairs && repairs[t].rid == rid ==> t in repairs' && repairs'[t] == repairs[t]
  }

  ghost predicate SameAccounts(accounts: map<Id, Account>, accounts': map<Id, Account>, issued: set<Id>, q: Platform) {
    && (forall id :: ServingOn(accounts, id, q) ==> id in accounts' && accounts'[id] == accounts[id])
    && (forall id :: id in accounts' && id in issued ==> id in accounts && accounts'[id].platform == accounts[id].platform)
  }

  /** The step from `s` to `s'` left everything about platform `q` as it was. */
  ghost predicate SameOn(s: State, s': State, q: Platform) {
    && SameOp(s.ops, s'.ops, q)
    && SameSlot(s.runtimes, s'.runtimes, s.active, s'.active, q)
    && (q in s.active ==> SameRepairs(s.repairs, s'.repairs, s.active[q]))
    && SameAccounts(s.accounts, s'.accounts, s.issued, q)
    && s.issued <= s'.issued && s'.closed == s.closed
  }

  lemma Frame(s: State, s': State, q: Platform)
    requires PlatInv(s, q) && SameOn(s, s', q)
    ensures PlatInv(s', q)
  {
  }

  predicate Placed(runtimes: map<Rid, Runtime>, active: map<Platform, Rid>, p: Platform) {
    p in active ==> active[p] in runtimes && runtimes[active[p]].platform == p
  }

  lemma ActivatedFrame(accounts: map<Id, Account>, t: Id, issued: set<Id>, p: Platform, q: Platform)
    requires p != q && (t in accounts ==> accounts[t].platform == p)
    ensures t in accounts ==> SameAccounts(accounts, Activated(accounts, t), issued, q)
    ensures SameAccounts(accounts, Deactivated(accounts, t), issued, q)
  {
  }

  /** An operation on one platform leaves the other alone. */
  lemma OpFrame(s: State, p: Platform, o: OpEvent, q: Platform)
    requires OpEnabled(s, p, o) && p != q && Placed(s.runtimes, s.active, p) && Placed(s.runtimes, s.active, q)
    requires p in s.ops && s.ops[p].target in s.accounts ==> s.accounts[s.ops[p].target].platform == p
    requires p in s.ops && s.ops[p].ActLoop? ==> p in s.active && s.active[p] == s.ops[p].rid
    ensures SameOn(s, OpNext(s, p, o), q)
  {
    if p in s.ops {
      ActivatedFrame(s.accounts, s.ops[p].target, s.issued, p, q);
    }
  }

  lemma StopFrame(s: State, p: Platform, x: StopEvent, q: Platform)
    requires Stopping(s, p) && StopEnabled(s, p, x) && p != q && Placed(s.runtimes, s.active, p) && Placed(s.runtimes, s.active, q)
    requires p in s.active && s.active[p] == s.ops[p].rid
    ensures SameOn(s, StopNext(s, p, x), q)
  {
  }

  /** Taking the lock, and the checks made under it. */
  lemma CheckKeeps(s: State, p: Platform, o: OpEvent)
    requires PlatInv(s, p) && OpEnabled(s, p, o) && s.accounts.Keys <= s.issued
    requires o.LockActivate? || o.CheckActivate? || o.LockDeactivate? || o.CheckDeactivate?
    ensures PlatInv(OpNext(s, p, o), p)
  {
  }

  /** The registry writes and the start of a driver. */
  lemma WriteKeeps(s: State, p: Platform, o: OpEvent)
    requires PlatInv(s, p) && OpEnabled(s, p, o) && s.accounts.Keys <= s.issued && AllHealthy(s.runtimes)
    requires o.WriteActivate? || o.StartDriver? || o.StartLoop? || o.WriteDeactivate?
    ensures PlatInv(OpNext(s, p, o), p)
  {
  }

  lemma StopKeeps(s: State, p: Platform, x: StopEvent)
    requires PlatInv(s, p) && Stopping(s, p) && StopEnabled(s, p, x) && AllHealthy(s.runtimes)
    ensures PlatInv(StopNext(s, p, x), p)
  {
    match x
    case StopCancel =>
    case StopDone =>
    case StopLock =>
    case StopTimeout(t) =>
      var rid, s' := s.ops[p].rid, StopNext(s, p, x);
      assert s'.repairs[t] == Repair(rid, s.runtimes[rid].gen);
    case StopDriver(ok) =>
    case StopEmpty =>
    case StopRestart => assert Healthy(s.runtimes[s.ops[p].rid]);
  }

  /** The runtimes' own shape survives every operation and stop. */
  lemma OpHealth(s: State, p: Platform, o: OpEvent)
    requires Inv(s) && OpEnabled(s, p, o)
    ensures AllHealthy(OpRuntimes(s, p, o))
    ensures !s.closed ==> DrainsOk(OpRuntimes(s, p, o), s.drains)
    ensures s.closed ==> OpRuntimes(s, p, o) == s.runtimes && !(o.StartDriver? && o.ok)
  {
  }

  lemma StopHealth(s: State, p: Platform, x: StopEvent)
    requires Inv(s) && Stopping(s, p) && StopEnabled(s, p, x) && PlatInv(s, p)
    ensures AllHealthy(StopNext(s, p, x).runtimes) && !s.closed
  {
    assert Healthy(s.runtimes[s.ops[p].rid]);
  }

  lemma OperateKeeps(s: State, p: Platform, o: OpEvent)
    requires Inv(s) && OpEnabled(s, p, o)
    ensures Inv(OpNext(s, p, o))
  {
    var q := if p == WeChat then WeCom else WeChat;
    AnyPlatform(s, p);
    AnyPlatform(s, q);
    if o.WriteActivate? || o.StartDriver? || o.StartLoop? || o.WriteDeactivate? {
      WriteKeeps(s, p, o);
    } else {
      CheckKeeps(s, p, o);
    }
    OpFrame(s, p, o, q);
    Frame(s, OpNext(s, p, o), q);
    OpHealth(s, p, o);
  }

  lemma StopsKeep(s: State, p: Platform, x: StopEvent)
    requires Inv(s) && Stopping(s, p) && StopEnabled(s, p, x)
    ensures Inv(StopNext(s, p, x))
  {
    var q := if p == WeChat then WeCom else WeChat;
    AnyPlatform(s, p);
    AnyPlatform(s, q);
    StopKeeps(s, p, x);
    StopFrame(s, p, x, q);
    Frame(s, StopNext(s, p, x), q);
    StopHealth(s, p, x);
  }

  lemma RepairPlatform(s: State, ticket: Ticket, q: Platform)
    requires RepairEnabled(s, ticket) && PlatInv(s, q) && AllHealthy(s.runtimes) && (s.closed ==> s.active == map[])
    ensures PlatInv(RepairNext(s, ticket), q)
  {
    var repair := s.repairs[ticket];
    assert Healthy(s.runtimes[repair.rid]);
    if q in s.active && s.active[q] != repair.rid {
      assert forall t :: t in s.repairs && s.repairs[t].rid == s.active[q] ==> t != ticket;
      Frame(s, RepairNext(s, ticket), q);
    } else if q in s.active && s.runtimes[repair.rid].gen != repair.gen {
      // A repair of an older generation: the one that keeps ingest going is another.
      assert forall t :: t in s.repairs && s.repairs[t] == Repair(repair.rid, s.runtimes[repair.rid].gen) ==>
               t in RepairNext(s, ticket).repairs && RepairNext(s, ticket).repairs[t] == s.repairs[t];
    }
  }

  lemma RepairKeeps(s: State, ticket: Ticket)
    requires Inv(s) && RepairEnabled(s, ticket)
    ensures Inv(RepairNext(s, ticket))
  {
    RepairPlatform(s, ticket, WeChat);
    RepairPlatform(s, ticket, WeCom);
  }

  /** The mark falls on an inactive account whose platform no operation holds. */
  lemma MarkPlatform(s: State, t: Id, ok: bool, q: Platform)
    requires PlatInv(s, q) && EditEnabled(s, BeginDelete(t, ok)) && s.accounts[t].platform == q
    ensures PlatInv(EditNext(s, BeginDelete(t, ok)), q)
  {
  }

  lemma EditFrame(s: State, g: RegistryEvent, q: Platform)
    requires EditEnabled(s, g) && s.accounts.Keys <= s.issued && Placed(s.runtimes, s.active, q)
    requires g.BeginDelete? ==> s.accounts[g.target].platform != q
    ensures SameOn(s, EditNext(s, g), q)
  {
  }

  lemma EditPlatform(s: State, g: RegistryEvent, q: Platform)
    requires PlatInv(s, q) && EditEnabled(s, g) && s.accounts.Keys <= s.issued
    ensures PlatInv(EditNext(s, g), q)
  {
    if g.BeginDelete? && s.accounts[g.target].platform == q {
      MarkPlatform(s, g.target, g.ok, q);
    } else {
      EditFrame(s, g, q);
      Frame(s, EditNext(s, g), q);
    }
  }

  lemma EditKeeps(s: State, g: RegistryEvent)
    requires Inv(s) && EditEnabled(s, g)
    ensures Inv(EditNext(s, g))
  {
    EditPlatform(s, g, WeChat);
    EditPlatform(s, g, WeCom);
  }

  lemma ShutdownKeeps(s: State)
    requires Inv(s) && s.ops == map[] && !s.closed
    ensures Inv(ShutdownNext(s))
  {
    forall rid | rid in s.runtimes && rid in s.active.Values
      ensures Quiet(s.runtimes[rid])
    {
      var p :| p in s.active && s.active[p] == rid;
      AnyPlatform(s, p);
    }
  }

  lemma DrainKeeps(s: State, rid: Rid, d: DrainEvent)
    requires Inv(s) && rid in s.drains && rid in s.runtimes && DrainEnabled(s.runtimes[rid], s.drains[rid], d)
    ensures Inv(DrainNext(s, rid, d))
  {
  }

  lemma IngestPlatform(s: State, rid: Rid, i: IngestEvent, q: Platform)
    requires rid in s.runtimes && IngestEnabled(s.runtimes[rid], i) && PlatInv(s, q)
    ensures PlatInv(Next(s, Ingest(rid, i)), q)
  {
  }

  lemma IngestKeeps(s: State, rid: Rid, i: IngestEvent)
    requires Inv(s) && rid in s.runtimes && IngestEnabled(s.runtimes[rid], i)
    ensures Inv(Next(s, Ingest(rid, i)))
  {
    IngestPlatform(s, rid, i, WeChat);
    IngestPlatform(s, rid, i, WeCom);
  }

  lemma StepKeeps(s: State, e: Event)
    requires Inv(s)
    ensures Inv(Step(s, e))
  {
    if Enabled(s, e) {
      match e
      case Operate(p, o) => OperateKeeps(s, p, o);
      case Stop(p, x) => StopsKeep(s, p, x);
      case Repairs(ticket) => RepairKeeps(s, ticket);
      case Edit(g) => EditKeeps(s, g);
      case Shutdown => ShutdownKeeps(s);
      case Drain(rid, d) => DrainKeeps(s, rid, d);
      case Ingest(rid, i) => IngestKeeps(s, rid, i);
      case Crash =>
    }
  }
}
