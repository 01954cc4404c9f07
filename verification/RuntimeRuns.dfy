/** The runtime manager's guarantees over every run, with crashes and every interleaving. */
module RuntimeRuns {
  import opened RuntimeManager
  import opened RuntimeSafety

  lemma {:induction false} RunKeeps(s: State, es: seq<Event>)
    requires Inv(s)
    ensures Inv(Run(s, es))
    decreases |es|
  {
    if es != [] {
      StepKeeps(s, es[0]);
      RunKeeps(Step(s, es[0]), es[1..]);
    }
  }

  /** A runtime in the slot of `p` belongs to an account that the registry has as active, not
      being deleted, and on `p`; its driver is stopped exactly while the lock holder is about to
      empty the slot; at most one ingest loop of any runtime is alive. */
  lemma ActiveRuntimesServe(accounts: map<Id, Account>, es: seq<Event>, p: Platform, rid: Rid)
    ensures var s := Run(Boot(accounts), es);
            && (p in s.active ==>
                  && s.active[p] in s.runtimes && SlotOk(s.accounts, s.runtimes[s.active[p]], p)
                  && (s.runtimes[s.active[p]].stopped <==> AboutToEmpty(s.ops, p)))
            && (rid in s.runtimes ==> s.runtimes[rid].alive <= {s.runtimes[rid].gen})
  {
    RunKeeps(Boot(accounts), es);
    var s := Run(Boot(accounts), es);
    AnyPlatform(s, p);
    assert rid in s.runtimes ==> Healthy(s.runtimes[rid]);
  }

  /** While no operation is under way and the manager is open, an active runtime's ingest runs or
      is about to be repaired, whatever stops timed out or failed before. */
  lemma IngestGoesOn(accounts: map<Id, Account>, es: seq<Event>, p: Platform)
    ensures var s := Run(Boot(accounts), es);
            p in s.active && p !in s.ops ==>
              !s.closed && s.active[p] in s.runtimes && Served(s.repairs, s.active[p], s.runtimes[s.active[p]])
  {
    RunKeeps(Boot(accounts), es);
    var s := Run(Boot(accounts), es);
    AnyPlatform(s, p);
  }

  /** A pending repair of the current generation really revives ingest once its loop has ended. */
  lemma RepairRevives(s: State, p: Platform, t: Ticket)
    requires Inv(s) && p in s.active && p !in s.ops
    requires s.active[p] in s.runtimes && t in s.repairs && s.repairs[t] == Repair(s.active[p], s.runtimes[s.active[p]].gen)
    requires s.repairs[t].gen !in s.runtimes[s.active[p]].alive
    ensures var s' := Step(s, Repairs(t));
            && s'.active == s.active && s.active[p] in s'.runtimes
            && var r := s'.runtimes[s.active[p]]; r.gen in r.alive && r.gen !in r.cancelled
  {
    AnyPlatform(s, p);
    assert Healthy(s.runtimes[s.active[p]]);
  }

  predicate Live(s: State, rid: Rid) {
    rid in s.runtimes && s.runtimes[rid].gen in s.runtimes[rid].alive && s.runtimes[rid].gen !in s.runtimes[rid].cancelled
  }

  /** Nothing can block the repair: the loop it waits for was cancelled, so its end and the repair
      are all that is missing. */
  lemma IngestResumes(s: State, p: Platform)
    requires Inv(s) && p in s.active && p !in s.ops && s.active[p] in s.runtimes && !Live(s, s.active[p])
    ensures exists t :: Live(Step(Step(s, Ingest(s.active[p], LoopExit(s.runtimes[s.active[p]].gen))), Repairs(t)), s.active[p])
  {
    AnyPlatform(s, p);
    var rid, r := s.active[p], s.runtimes[s.active[p]];
    assert Healthy(r);
    var t :| t in s.repairs && s.repairs[t] == Repair(rid, r.gen);
    var e := Ingest(rid, LoopExit(r.gen));
    var s' := Step(s, e);
    StepKeeps(s, e);
    assert s'.repairs == s.repairs && s'.active == s.active && s'.ops == s.ops && s'.runtimes[rid].gen == r.gen;
    assert r.gen !in s'.runtimes[rid].alive;
    RepairRevives(s', p, t);
  }

  ghost predicate Punctual(readLog: seq<Read>) {
    forall k :: 0 <= k < |readLog| ==> !readLog[k].late
  }

  lemma {:induction false} RunPunctual(s: State, es: seq<Event>)
    requires Inv(s) && Punctual(s.readLog)
    ensures Punctual(Run(s, es).readLog)
    decreases |es|
  {
    if es != [] {
      StepPunctual(s, es[0]);
      StepKeeps(s, es[0]);
      RunPunctual(Step(s, es[0]), es[1..]);
    }
  }

  lemma StepPunctual(s: State, e: Event)
    requires AllHealthy(s.runtimes) && Punctual(s.readLog)
    ensures Punctual(Step(s, e).readLog)
  {
    if e.Ingest? && e.rid in s.runtimes {
      assert Healthy(s.runtimes[e.rid]);
    }
  }

  /** Ingest, by a loop or by an explicit sync, never reads a driver that was stopped. */
  lemma NoLateReads(accounts: map<Id, Account>, es: seq<Event>)
    ensures Punctual(Run(Boot(accounts), es).readLog)
  {
    RunPunctual(Boot(accounts), es);
  }

  // Restore -------------------------------------------------------------------------------------

  ghost predicate OneActive(accounts: map<Id, Account>) {
    forall i, j | i in accounts && j in accounts && accounts[i].active && accounts[j].active
                  && accounts[i].platform == accounts[j].platform :: i == j
  }

  /** The registry after a switch to `t`: of the platform of `t` no other account is active, `t` itself is when
      `won`, and nothing else has changed. */
  ghost predicate Switched(before: map<Id, Account>, after: map<Id, Account>, t: Id, won: bool) {
    && t in before && after.Keys == before.Keys
    && (forall id :: id in before && before[id].platform != before[t].platform ==> after[id] == before[id])
    && (forall id :: id in before && before[id].platform == before[t].platform ==>
          after[id] == before[id].(active := won && id == t))
  }

  /** Only the activity of `t` has changed: it is off. */
  ghost predicate SwitchedOff(before: map<Id, Account>, after: map<Id, Account>, t: Id) {
    && t in before && after.Keys == before.Keys && after[t] == before[t].(active := false)
    && forall id :: id in before && id != t ==> after[id] == before[id]
  }

  /** What the operation of a platform writes, in every reachable state: an activation switches to its
      target, an explicit one that cannot start its driver switches the target off again, a restore does
      not, and a deactivation switches its target off. */
  lemma OperationsWriteExactly(accounts: map<Id, Account>, es: seq<Event>, p: Platform, o: OpEvent)
    requires OpEnabled(Run(Boot(accounts), es), p, o)
    ensures var s := Run(Boot(accounts), es);
            var after := Step(s, Operate(p, o)).accounts;
            if o.WriteActivate? && o.ok then Switched(s.accounts, after, s.ops[p].target, true)
            else if o.StartDriver? && !o.ok && o.undoOk && !s.ops[p].restoring then SwitchedOff(s.accounts, after, s.ops[p].target)
            else if o.WriteDeactivate? && o.ok then SwitchedOff(s.accounts, after, s.ops[p].target)
            else after == s.accounts
  {
    RunKeeps(Boot(accounts), es);
    AnyPlatform(Run(Boot(accounts), es), p);
  }

  /** Activating leaves exactly the target active on its platform. */
  lemma ActivatedAlone(accounts: map<Id, Account>, t: Id)
    requires OneActive(accounts)
    ensures t in accounts ==> OneActive(Activated(accounts, t))
    ensures OneActive(Deactivated(accounts, t))
    ensures t in accounts && accounts[t].active ==> Activated(accounts, t) == accounts
  {
  }

  lemma OpOneActive(s: State, p: Platform, o: OpEvent)
    requires OneActive(s.accounts) && OpEnabled(s, p, o)
    ensures OneActive(OpAccounts(s, p, o))
  {
    if p in s.ops {
      ActivatedAlone(s.accounts, s.ops[p].target);
    }
  }

  lemma EditOneActive(s: State, g: RegistryEvent)
    requires OneActive(s.accounts) && EditEnabled(s, g)
    ensures OneActive(EditNext(s, g).accounts)
  {
  }

  /** Only operations and edits of the registry touch accounts. */
  lemma AccountsFrame(s: State, e: Event)
    requires !e.Operate? && !e.Edit?
    ensures Step(s, e).accounts == s.accounts
  {
  }

  lemma StepOneActive(s: State, e: Event)
    requires OneActive(s.accounts)
    ensures OneActive(Step(s, e).accounts)
  {
    match e
    case Operate(p, o) => if OpEnabled(s, p, o) { OpOneActive(s, p, o); }
    case Edit(g) => if EditEnabled(s, g) { EditOneActive(s, g); }
    case _ => AccountsFrame(s, e);
  }

  /** A restore of `op.target` is under way. */
  predicate Restores(op: Op) {
    (op.ActCheck? || op.ActStop? || op.ActWrite? || op.ActStart? || op.ActLoop?) && op.restoring
  }

  /** The write of a restore changes nothing exactly when no other account of the platform is
      active; the registry loader does not rule that out. */
  lemma RestoreWrites(s: State, p: Platform)
    requires PlatInv(s, p) && p in s.ops && s.ops[p].ActWrite? && s.ops[p].restoring
    ensures Step(s, Operate(p, WriteActivate(true))).accounts == s.accounts <==>
            forall id :: id in s.accounts && s.accounts[id].platform == p && s.accounts[id].active ==> id == s.ops[p].target
  {
  }

  /** With one active account per platform, a restore step keeps the registry and every slot. */
  lemma RestoreStep(s: State, p: Platform, o: OpEvent)
    requires PlatInv(s, p) && OneActive(s.accounts) && p in s.ops && Restores(s.ops[p]) && OpEnabled(s, p, o)
    ensures OpNext(s, p, o).accounts == s.accounts
    ensures forall q :: q in s.active ==> q in OpNext(s, p, o).active && OpNext(s, p, o).active[q] == s.active[q]
    ensures OpHeld(s, p, o).Held? ==> !OpHeld(s, p, o).op.ActStop?
  {
    ActivatedAlone(s.accounts, s.ops[p].target);
  }

  /** A restore never gets as far as stopping the runtime in the slot. */
  ghost predicate Gentle(ops: map<Platform, Op>) {
    forall p :: p in ops && Restores(ops[p]) ==> !ops[p].ActStop?
  }

  lemma HeldGentle(s: State, p: Platform, o: OpEvent)
    requires PlatInv(s, p) && OneActive(s.accounts) && OpEnabled(s, p, o)
    ensures OpHeld(s, p, o).Held? && Restores(OpHeld(s, p, o).op) ==> !OpHeld(s, p, o).op.ActStop?
  {
    if p in s.ops && Restores(s.ops[p]) {
      RestoreStep(s, p, o);
    }
  }

  lemma OpGentle(s: State, p: Platform, o: OpEvent)
    requires PlatInv(s, p) && OneActive(s.accounts) && Gentle(s.ops) && OpEnabled(s, p, o)
    ensures Gentle(WithHeld(s.ops, p, OpHeld(s, p, o)))
  {
    HeldGentle(s, p, o);
  }

  lemma StopGentle(s: State, p: Platform, x: StopEvent)
    requires Gentle(s.ops) && Stopping(s, p) && StopEnabled(s, p, x)
    ensures Gentle(StopNext(s, p, x).ops)
  {
  }

  lemma OpsFrame(s: State, e: Event)
    requires !e.Operate? && !e.Stop? && !e.Crash?
    ensures Step(s, e).ops == s.ops
  {
    match e
    case Repairs(ticket) =>
    case Edit(g) =>
    case Shutdown =>
    case Drain(rid, d) =>
    case Ingest(rid, i) =>
  }

  lemma StepGentle(s: State, e: Event)
    requires Inv(s) && OneActive(s.accounts) && Gentle(s.ops)
    ensures Gentle(Step(s, e).ops)
  {
    match e
    case Operate(p, o) => if OpEnabled(s, p, o) { AnyPlatform(s, p); OpGentle(s, p, o); }
    case Stop(p, x) => if Stopping(s, p) && StopEnabled(s, p, x) { StopGentle(s, p, x); }
    case Crash =>
    case _ => OpsFrame(s, e);
  }

  lemma {:induction false} RunGentle(s: State, es: seq<Event>)
    requires Inv(s) && OneActive(s.accounts) && Gentle(s.ops)
    ensures Inv(Run(s, es)) && OneActive(Run(s, es).accounts) && Gentle(Run(s, es).ops)
    decreases |es|
  {
    if es != [] {
      StepKeeps(s, es[0]);
      StepOneActive(s, es[0]);
      StepGentle(s, es[0]);
      RunGentle(Step(s, es[0]), es[1..]);
    }
  }

  /** The platform whose lock holder makes the step. */
  predicate StepOf(e: Event, p: Platform) {
    (e.Operate? || e.Stop?) && e.p == p
  }

  /** From a registry with at most one active account per platform, whatever ran before: a step of
      a restore changes neither the registry nor any slot that is taken, whether or not the driver
      starts, and one active account per platform remains. */
  lemma RestoreUndoesNothing(accounts: map<Id, Account>, es: seq<Event>, p: Platform, e: Event)
    requires OneActive(accounts) && StepOf(e, p)
    ensures var s := Run(Boot(accounts), es);
            && OneActive(s.accounts)
            && (p in s.ops && Restores(s.ops[p]) ==>
                  && Step(s, e).accounts == s.accounts
                  && forall q :: q in s.active ==> q in Step(s, e).active && Step(s, e).active[q] == s.active[q])
  {
    RunGentle(Boot(accounts), es);
    var s := Run(Boot(accounts), es);
    AnyPlatform(s, p);
    if Enabled(s, e) && p in s.ops && Restores(s.ops[p]) && e.Operate? {
      RestoreStep(s, p, e.o);
    }
  }

  /** Two active accounts of one platform pass the loader; restoring one switches the other off. */
  lemma RestoreMayDemote()
    ensures var accounts := map[0 := Account(WeChat, true, false), 1 := Account(WeChat, true, false)];
            var es := [Operate(WeChat, LockActivate(0, true)), Operate(WeChat, CheckActivate(true)), Operate(WeChat, WriteActivate(true))];
            Run(Boot(accounts), es).accounts == accounts[1 := Account(WeChat, false, false)]
  {
    var accounts := map[0 := Account(WeChat, true, false), 1 := Account(WeChat, true, false)];
    var s := Boot(accounts);
    var e1, e2, e3 := Operate(WeChat, LockActivate(0, true)), Operate(WeChat, CheckActivate(true)), Operate(WeChat, WriteActivate(true));
    var s1 := Step(s, e1);
    var s2 := Step(s1, e2);
    assert s2.ops[WeChat] == ActWrite(0, true);
    var s3 := Step(s2, e3);
    assert Run(s, [e1, e2, e3]) == Run(s1, [e2, e3]);
    assert Run(s1, [e2, e3]) == Run(s2, [e3]);
    assert Run(s2, [e3]) == Run(s3, []);
  }

  // Lookup --------------------------------------------------------------------------------------

  datatype Lookup = Refused | Driver(rid: Rid)

  /** `Manager.Driver`: a deleting or unknown account is refused before the slot is read. */
  function Find(s: State, t: Id): Lookup {
    if !Registered(s.accounts, t) then Refused
    else
      var p := s.accounts[t].platform;
      if Occupied(s, p) && s.runtimes[s.active[p]].account == t then Driver(s.active[p]) else Refused
  }

  /** The lookup succeeds for exactly the accounts whose runtime is in a slot; each such account is
      active, none is being deleted, no other account gets the same driver, and the driver that is
      found is stopped exactly when the lock holder is about to empty its slot. */
  lemma LookupIsExact(accounts: map<Id, Account>, es: seq<Event>, t: Id, rid: Rid)
    ensures var s := Run(Boot(accounts), es);
            Find(s, t) == Driver(rid) <==> exists p :: p in s.active && s.active[p] == rid && rid in s.runtimes && s.runtimes[rid].account == t
    ensures var s := Run(Boot(accounts), es);
            Find(s, t) == Driver(rid) ==>
              && Registered(s.accounts, t) && s.accounts[t].active && rid in s.runtimes
              && (s.runtimes[rid].stopped <==> AboutToEmpty(s.ops, s.accounts[t].platform))
  {
    RunKeeps(Boot(accounts), es);
    var s := Run(Boot(accounts), es);
    if Registered(s.accounts, t) {
      AnyPlatform(s, s.accounts[t].platform);
    }
    forall p | p in s.active
      ensures s.active[p] in s.runtimes && SlotOk(s.accounts, s.runtimes[s.active[p]], p)
    {
      AnyPlatform(s, p);
    }
  }

  /** The window is real: right after a successful stop the lookup still hands the driver out. */
  lemma StoppedDriverIsFound(s: State, p: Platform)
    requires Inv(s) && Stopping(s, p) && s.ops[p].pc.Holding?
    ensures var s', rid := Step(s, Stop(p, StopDriver(true))), s.ops[p].rid;
            rid in s'.runtimes && s'.runtimes[rid].stopped && Find(s', s'.runtimes[rid].account) == Driver(rid)
  {
    AnyPlatform(s, p);
  }
}
