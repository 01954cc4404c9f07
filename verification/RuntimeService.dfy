/** The manager object: `activate`, `Deactivate`, `Restore` and `stopRuntime` as they run, with
    the steps of everyone else let in wherever the code waits.  Every method keeps the invariant of
    all runs, so what follows from it holds of the object. */
module RuntimeService {
  import opened RuntimeManager
  import opened RuntimeSafety
  import opened RuntimeRuns

  /** What one operation meets: the answers of disk and driver, and the steps of others in between. */
  datatype World = World(
    beforeLock: seq<Event>, beforeCheck: seq<Event>, beforeCancel: seq<Event>, whileDraining: seq<Event>,
    whileLocking: seq<Event>, whileStopping: seq<Event>, afterStop: seq<Event>,
    beforeWrite: seq<Event>, whileStarting: seq<Event>, beforeLoop: seq<Event>,
    installed: bool, stopOk: bool, writeOk: bool, startOk: bool, undoOk: bool, statusOk: bool)

  predicate Silent(w: World) {
    && w.beforeLock == [] && w.beforeCheck == [] && w.beforeCancel == [] && w.whileDraining == [] && w.whileLocking == []
    && w.whileStopping == [] && w.afterStop == [] && w.beforeWrite == [] && w.whileStarting == [] && w.beforeLoop == []
  }

  predicate SameHold(s: State, s': State, p: Platform) {
    SameOp(s.ops, s'.ops, p) && (p in s'.active <==> p in s.active) && (p in s.active ==> s'.active[p] == s.active[p])
  }

  /** Held locks protect: no one else moves the operation of `p` or its slot. */
  lemma LockProtects(s: State, e: Event, p: Platform)
    requires p in s.ops && !StepOf(e, p) && !e.Crash?
    ensures SameHold(s, Step(s, e), p)
  {
    match e
    case Operate(q, o) =>
    case Stop(q, x) =>
    case Repairs(ticket) =>
    case Edit(g) =>
    case Shutdown =>
    case Drain(rid, d) =>
    case Ingest(rid, i) =>
  }

  method OthersStep(s: State, e: Event, p: Platform) returns (s': State)
    requires Inv(s) && p in s.ops
    ensures Inv(s') && SameHold(s, s', p) && (OneActive(s.accounts) ==> OneActive(s'.accounts))
  {
    s' := s;
    if !StepOf(e, p) && !e.Crash? {
      LockProtects(s, e, p);
      StepKeeps(s, e);
      if OneActive(s.accounts) { StepOneActive(s, e); }
      s' := Step(s, e);
    }
  }

  method OthersRun(s: State, es: seq<Event>, p: Platform) returns (s': State)
    requires Inv(s) && p in s.ops
    ensures Inv(s') && SameHold(s, s', p) && (es == [] ==> s' == s) && (OneActive(s.accounts) ==> OneActive(s'.accounts))
  {
    s' := s;
    for i := 0 to |es|
      invariant Inv(s') && SameHold(s, s', p) && (i == 0 ==> s' == s) && (OneActive(s.accounts) ==> OneActive(s'.accounts))
    {
      s' := OthersStep(s', es[i], p);
    }
  }

  /** Anyone's steps, while this operation holds nothing. */
  method AnyoneStep(s: State, e: Event) returns (s': State)
    requires Inv(s)
    ensures Inv(s') && (OneActive(s.accounts) ==> OneActive(s'.accounts))
  {
    s' := s;
    if !e.Crash? {
      StepKeeps(s, e);
      if OneActive(s.accounts) { StepOneActive(s, e); }
      s' := Step(s, e);
    }
  }

  method AnyoneRun(s: State, es: seq<Event>) returns (s': State)
    requires Inv(s)
    ensures Inv(s') && (es == [] ==> s' == s) && (OneActive(s.accounts) ==> OneActive(s'.accounts))
  {
    s' := s;
    for i := 0 to |es|
      invariant Inv(s') && (i == 0 ==> s' == s) && (OneActive(s.accounts) ==> OneActive(s'.accounts))
    {
      s' := AnyoneStep(s', es[i]);
    }
  }

  /** A number not yet in use, for a new runtime object or repair goroutine. */
  method Fresh(used: set<nat>) returns (n: nat)
    ensures n !in used
  {
    n := 0;
    var todo := used;
    while todo != {}
      invariant forall k :: k in used && k !in todo ==> k < n
      decreases todo
    {
      var k :| k in todo;
      todo := todo - {k};
      n := if k >= n then k + 1 else n;
    }
  }

  /** `Unwell` is a restored runtime whose status could not be read, `Skipped` a restore of an account
      that is no longer wanted, `Stopped` a deactivation. */
  datatype Outcome = Running | Unwell | Skipped | Stopped | Failed | TimedOut

  predicate SlotsKept(active: map<Platform, Rid>, active': map<Platform, Rid>, p: Platform) {
    forall q :: q in active && q != p ==> q in active' && active'[q] == active[q]
  }

  /** The checks under the lock find nothing to refuse. */
  predicate Admits(s: State, t: Id, restoring: bool, installed: bool) {
    Registered(s.accounts, t) && (restoring ==> s.accounts[t].active) && !s.closed && installed
  }

  predicate Runs(s: State, p: Platform, t: Id) {
    Occupied(s, p) && s.runtimes[s.active[p]].account == t
  }

  /** A stop that nobody else helps along gets through: the loop has ended and the mutex is free. */
  predicate Stoppable(r: Runtime, w: World) {
    r.gen !in r.alive && r.mutex.Unlocked? && w.stopOk
  }

  /** A restore also reads the status of what runs. */
  function Reported(restoring: bool, w: World): Outcome {
    if restoring && !w.statusOk then Unwell else Running
  }

  /** The checks answer by themselves. */
  predicate Settled(s: State, p: Platform, t: Id, restoring: bool, w: World) {
    !Admits(s, t, restoring, w.installed) || Runs(s, p, t)
  }

  /** What they answer then. */
  function Refusal(s: State, t: Id, restoring: bool, w: World): Outcome {
    if Admits(s, t, restoring, w.installed) then Running
    else if restoring && Registered(s.accounts, t) && !s.accounts[t].active then Skipped
    else Failed
  }

  /** What an undisturbed `activate` answers once it has the lock. */
  function LockedActivation(s: State, p: Platform, t: Id, restoring: bool, w: World): Outcome {
    if !Admits(s, t, restoring, w.installed) then Refusal(s, t, restoring, w)
    else if Runs(s, p, t) then Reported(restoring, w)
    else if Occupied(s, p) && !Stoppable(s.runtimes[s.active[p]], w) then Failed
    else if w.writeOk && w.startOk then Reported(restoring, w)
    else Failed
  }

  /** What an undisturbed `activate` answers. */
  function Activation(s: State, t: Id, restoring: bool, w: World): Outcome {
    if !Registered(s.accounts, t) then Failed
    else if s.accounts[t].platform in s.ops then TimedOut
    else LockedActivation(s, s.accounts[t].platform, t, restoring, w)
  }

  /** What an undisturbed `Deactivate` answers. */
  function Deactivation(s: State, t: Id, w: World): Outcome {
    if !Registered(s.accounts, t) then Failed
    else
      var p := s.accounts[t].platform;
      if p in s.ops then TimedOut
      else if Runs(s, p, t) && !Stoppable(s.runtimes[s.active[p]], w) then Failed
      else if w.writeOk then Stopped
      else Failed
  }

  /** An undisturbed `activate` gets as far as its registry write. */
  predicate Rewrites(s: State, p: Platform, t: Id, restoring: bool, w: World) {
    && Admits(s, t, restoring, w.installed) && !Runs(s, p, t)
    && (Occupied(s, p) ==> Stoppable(s.runtimes[s.active[p]], w)) && w.writeOk
  }

  /** An undisturbed explicit `activate` of `t` writes the registry. */
  predicate Undertaken(s: State, t: Id, w: World) {
    Registered(s.accounts, t) && s.accounts[t].platform !in s.ops && Rewrites(s, s.accounts[t].platform, t, false, w)
  }

  /** The registry an undisturbed `activate` leaves: the switch to `t`, undone for `t` itself when the driver of
      an explicit activation does not start. */
  ghost predicate Registers(s: State, after: map<Id, Account>, p: Platform, t: Id, restoring: bool, w: World) {
    if Rewrites(s, p, t, restoring, w) then Switched(s.accounts, after, t, w.startOk || restoring || !w.undoOk)
    else after == s.accounts
  }

  class Manager {
    var accounts: map<Id, Account>
    var runtimes: map<Rid, Runtime>
    var active: map<Platform, Rid>
    var ops: map<Platform, Op>
    var repairs: map<Ticket, Repair>
    var drains: map<Rid, StopPc>
    var closed: bool
    var readLog: seq<Read>
    var issued: set<Id>
    ghost var edits: nat   // sections of this object's operations that changed the registry or emptied a slot

    function Snapshot(): State
      reads this
    {
      State(accounts, runtimes, active, ops, repairs, drains, closed, readLog, issued)
    }

    /** What every reachable state satisfies, and every method keeps. */
    ghost predicate Valid()
      reads this
    {
      Inv(Snapshot())
    }

    constructor (registry: map<Id, Account>)
      ensures Snapshot() == Boot(registry) && Valid() && edits == 0
    {
      accounts, runtimes, active, ops, repairs := registry, map[], map[], map[], map[];
      drains, closed, readLog, issued, edits := map[], false, [], registry.Keys, 0;
    }

    /** What the steps of others made of the fields. */
    method Adopt(s: State)
      modifies this
      ensures Snapshot() == s && edits == old(edits)
    {
      accounts, runtimes, active, ops, repairs := s.accounts, s.runtimes, s.active, s.ops, s.repairs;
      drains, closed, readLog, issued := s.drains, s.closed, s.readLog, s.issued;
    }

    /** Whatever else the process does while the operation on `p` goes on. */
    method Others(p: Platform, es: seq<Event>)
      requires Valid() && p in ops
      modifies this
      ensures Valid() && Undisturbing(es)
      ensures SameHold(old(Snapshot()), Snapshot(), p)
    {
      var s := OthersRun(Snapshot(), es, p);
      Adopt(s);
    }

    /** What the steps of others leave: no edit of ours, and one active account per platform. */
    twostate predicate Undisturbing(es: seq<Event>)
      reads this
    {
      && edits == old(edits) && (old(OneActive(accounts)) ==> OneActive(accounts))
      && (es == [] ==> Snapshot() == old(Snapshot()))
    }

    /** Waiting for a lock: everyone else goes on. */
    method Wait(es: seq<Event>)
      requires Valid()
      modifies this
      ensures Valid() && Undisturbing(es)
    {
      var s := AnyoneRun(Snapshot(), es);
      Adopt(s);
    }

    /** Others run while a stop is under way. */
    method Pause(p: Platform, es: seq<Event>)
      requires Valid() && Stopping(Snapshot(), p)
      modifies this
      ensures Valid() && Stopping(Snapshot(), p) && ops[p] == old(ops[p]) && Undisturbing(es)
    {
      Others(p, es);
      StopHolds(Snapshot(), p);
    }

    /** A section that made no edit kept the registry and every slot. */
    twostate predicate Counted()
      reads this
    {
      edits == old(edits) ==> accounts == old(accounts) && old(active).Keys <= active.Keys
    }

    /** Nobody else's lock was touched, and the manager not closed. */
    twostate predicate Aside(p: Platform)
      reads this
    {
      closed == old(closed) && forall q :: q != p ==> (q in ops <==> q in old(ops))
    }

    /** A stop that gives up waiting leaves a repair behind. */
    method GiveUp(p: Platform)
      requires Valid() && Stopping(Snapshot(), p) && (ops[p].pc.Waiting? || ops[p].pc.Drained?)
      modifies this`repairs, this`ops
      ensures Valid() && p !in ops
    {
      ghost var before := Snapshot();
      var ticket := Fresh(repairs.Keys);
      repairs := repairs[ticket := Repair(ops[p].rid, ops[p].pc.gen)];
      ops := ops - {p};
      GivesUp(before, p, ticket);
    }

    /** `stopRuntime` and the emptying of the slot that follows a success: cancel and drain the loop,
        take the ingest mutex, stop the driver.  Others may run at every point. */
    method StopRuntime(p: Platform, w: World) returns (ok: bool)
      requires Valid() && Stopping(Snapshot(), p) && ops[p].pc.Begun? && ops[p].pc.gen == runtimes[ops[p].rid].gen
      modifies this
      ensures Valid() && (OneActive(old(accounts)) ==> OneActive(accounts))
      ensures ok ==> p in ops && ops[p] == AfterStop(old(ops[p])) && p !in active
      ensures !ok ==> p !in ops
      ensures Silent(w) ==> accounts == old(accounts) && ok == Stoppable(old(runtimes[ops[p].rid]), w)
    {
      ok := DrainLoop(p, w);
      if ok {
        ok := Seize(p, w);
      }
      if ok {
        ok := Finish(p, w);
      }
    }

    /** Cancel the loop and wait for its end. */
    method DrainLoop(p: Platform, w: World) returns (ok: bool)
      requires Valid() && Stopping(Snapshot(), p) && ops[p].pc.Begun?
      modifies this
      ensures Valid() && (OneActive(old(accounts)) ==> OneActive(accounts))
      ensures ok ==> Stopping(Snapshot(), p) && ops[p] == WithPc(old(ops[p]), Waiting(old(ops[p]).pc.gen))
                     && StopEnabled(Snapshot(), p, StopDone)
      ensures !ok ==> p !in ops
      ensures Silent(w) ==> accounts == old(accounts) && ok == (old(ops[p]).pc.gen !in old(runtimes[ops[p].rid]).alive)
      ensures Silent(w) && ok ==> runtimes[ops[p].rid].mutex == old(runtimes[ops[p].rid]).mutex
    {
      Pause(p, w.beforeCancel);
      CancelLoop(p);
      Pause(p, w.whileDraining);
      ok := ops[p].pc.gen !in runtimes[ops[p].rid].alive;
      if !ok {
        GiveUp(p);
      }
    }

    /** `runtime.cancel()` */
    method CancelLoop(p: Platform)
      requires Valid() && Stopping(Snapshot(), p) && ops[p].pc.Begun?
      modifies this`runtimes, this`ops
      ensures Valid() && Stopping(Snapshot(), p) && ops[p] == WithPc(old(ops[p]), Waiting(old(ops[p]).pc.gen))
      ensures runtimes[ops[p].rid] == Cancel(old(runtimes[ops[p].rid]))
    {
      ghost var before := Snapshot();
      var rid := ops[p].rid;
      runtimes := runtimes[rid := Cancel(runtimes[rid])];
      ops := ops[p := WithPc(ops[p], Waiting(ops[p].pc.gen))];
      assert Snapshot() == StopNext(before, p, StopCancel);
      StopsKeep(before, p, StopCancel);
    }

    /** From the drained loop to the ingest mutex. */
    method Seize(p: Platform, w: World) returns (ok: bool)
      requires Valid() && Stopping(Snapshot(), p) && StopEnabled(Snapshot(), p, StopDone)
      modifies this
      ensures Valid() && (OneActive(old(accounts)) ==> OneActive(accounts))
      ensures ok ==> Stopping(Snapshot(), p) && ops[p] == WithPc(old(ops[p]), Holding(old(ops[p]).pc.gen))
      ensures !ok ==> p !in ops
      ensures Silent(w) ==> accounts == old(accounts) && ok == old(runtimes[ops[p].rid]).mutex.Unlocked?
    {
      ghost var before := Snapshot();
      ops := ops[p := WithPc(ops[p], Drained(ops[p].pc.gen))];
      Drains(before, p);
      Pause(p, w.whileLocking);
      if !runtimes[ops[p].rid].mutex.Unlocked? {
        GiveUp(p);
        return false;
      }
      TakeMutex(p);
      ok := true;
    }

    method TakeMutex(p: Platform)
      requires Valid() && Stopping(Snapshot(), p) && StopEnabled(Snapshot(), p, StopLock)
      modifies this`runtimes, this`ops
      ensures Valid() && Stopping(Snapshot(), p) && ops[p] == WithPc(old(ops[p]), Holding(old(ops[p]).pc.gen))
    {
      ghost var before := Snapshot();
      var rid := ops[p].rid;
      runtimes := runtimes[rid := runtimes[rid].(mutex := Stopper, stopping := true)];
      ops := ops[p := WithPc(ops[p], Holding(ops[p].pc.gen))];
      assert Snapshot() == StopNext(before, p, StopLock);
      StopsKeep(before, p, StopLock);
    }

    /** From the ingest mutex to the empty slot, or to the next loop of a driver that did not stop. */
    method Finish(p: Platform, w: World) returns (ok: bool)
      requires Valid() && Stopping(Snapshot(), p) && ops[p].pc.Holding?
      modifies this
      ensures Valid() && (OneActive(old(accounts)) ==> OneActive(accounts))
      ensures if ok then p in ops && ops[p] == AfterStop(old(ops[p])) && p !in active else p !in ops
      ensures Silent(w) ==> accounts == old(accounts) && ok == w.stopOk
    {
      Pause(p, w.whileStopping);
      StopDriverOf(p, w.stopOk);
      Pause(p, w.afterStop);
      ok := w.stopOk;
      if ok {
        EmptySlot(p);
      } else {
        RestartLoop(p);
      }
    }

    /** `driver.Stop` returned and the ingest mutex is released. */
    method StopDriverOf(p: Platform, ok: bool)
      requires Valid() && Stopping(Snapshot(), p) && ops[p].pc.Holding?
      modifies this`runtimes, this`ops
      ensures Valid() && Stopping(Snapshot(), p)
      ensures ops == old(ops)[p := WithPc(old(ops[p]), if ok then Emptying(old(ops[p]).pc.gen) else Restarting(old(ops[p]).pc.gen))]
    {
      ghost var before := Snapshot();
      var rid := ops[p].rid;
      if ok {
        runtimes := runtimes[rid := runtimes[rid].(mutex := Unlocked, stopped := true)];
        ops := ops[p := WithPc(ops[p], Emptying(ops[p].pc.gen))];
      } else {
        runtimes := runtimes[rid := runtimes[rid].(mutex := Unlocked, stopping := false)];
        ops := ops[p := WithPc(ops[p], Restarting(ops[p].pc.gen))];
      }
      assert Snapshot() == StopNext(before, p, StopDriver(ok));
      StopsKeep(before, p, StopDriver(ok));
    }

    /** The caller of a successful stop empties the slot. */
    method EmptySlot(p: Platform)
      requires Valid() && Stopping(Snapshot(), p) && ops[p].pc.Emptying?
      modifies this`active, this`ops, this`edits
      ensures Valid() && Counted() && ops == old(ops)[p := AfterStop(old(ops[p]))] && p !in active
    {
      ghost var before := Snapshot();
      AnyPlatform(before, p);
      assert runtimes == runtimes[ops[p].rid := runtimes[ops[p].rid]];
      if active[p] == ops[p].rid {
        active := active - {p};
      }
      ops := ops[p := AfterStop(ops[p])];
      edits := edits + 1;
      assert Snapshot() == StopNext(before, p, StopEmpty);
      StopsKeep(before, p, StopEmpty);
    }

    /** A failed stop starts the next generation of the loop. */
    method RestartLoop(p: Platform)
      requires Valid() && Stopping(Snapshot(), p) && ops[p].pc.Restarting?
      modifies this`runtimes, this`ops
      ensures Valid() && p !in ops
    {
      ghost var before := Snapshot();
      var rid := ops[p].rid;
      runtimes := runtimes[rid := StartIngest(runtimes[rid])];
      ops := ops - {p};
      assert Snapshot() == StopNext(before, p, StopRestart);
      StopsKeep(before, p, StopRestart);
    }

    /** Take the lock of `p`. */
    method Lock(p: Platform, o: OpEvent)
      requires Valid() && OpEnabled(Snapshot(), p, o) && (o.LockActivate? || o.LockDeactivate?)
      modifies this`ops
      ensures Valid()
      ensures ops == old(ops)[p := if o.LockActivate? then ActCheck(o.target, o.restoring) else OffCheck(o.target)]
      ensures Aside(p)
    {
      OperateKeeps(Snapshot(), p, o);
      ops := ops[p := if o.LockActivate? then ActCheck(o.target, o.restoring) else OffCheck(o.target)];
    }

    /** The checks under the lock; they end the operation, begin a stop, or go on to the write. */
    method Check(p: Platform, o: OpEvent) returns (next: Held)
      requires Valid() && OpEnabled(Snapshot(), p, o) && (o.CheckActivate? || o.CheckDeactivate?)
      modifies this`ops
      ensures Valid() && next == OpHeld(old(Snapshot()), p, o)
      ensures ops == WithHeld(old(ops), p, next)
      ensures Aside(p)
    {
      ghost var before := Snapshot();
      next := if o.CheckActivate? then AfterCheckActivate(Snapshot(), p, ops[p].target, ops[p].restoring, o.installed)
              else AfterCheckDeactivate(Snapshot(), p, ops[p].target);
      ops := if next.Released? then ops - {p} else ops[p := next.op];
      assert Snapshot() == OpNext(before, p, o);
      OperateKeeps(before, p, o);
    }

    /** The registry write of an activation. */
    method WriteActive(p: Platform, ok: bool) returns (done: bool)
      requires Valid() && p in ops && ops[p].ActWrite?
      modifies this`ops, this`accounts, this`edits
      ensures Valid()
      ensures done ==> p in ops && ops[p] == ActStart(old(ops[p]).target, old(ops[p]).restoring)
      ensures !done ==> p !in ops
      ensures old(ops[p]).restoring && OneActive(old(accounts)) ==> accounts == old(accounts) && edits == old(edits)
      ensures Counted() && (done <==> ok)
      ensures if done then Switched(old(accounts), accounts, old(ops[p]).target, true) else accounts == old(accounts)
      ensures Aside(p)
    {
      WriteTarget(Snapshot(), p);
      RestoreKeeps(accounts, ops[p].target);
      done := ok;
      if done {
        RecordActive(p);
      } else {
        OperateKeeps(Snapshot(), p, WriteActivate(false));
        ops := ops - {p};
      }
    }

    /** The write itself. */
    method RecordActive(p: Platform)
      requires Valid() && p in ops && ops[p].ActWrite? && Registered(accounts, ops[p].target)
      modifies this`ops, this`accounts, this`edits
      ensures Valid() && ops == old(ops)[p := ActStart(old(ops[p]).target, old(ops[p]).restoring)]
      ensures accounts == Activated(old(accounts), old(ops[p]).target)
      ensures edits == if accounts == old(accounts) then old(edits) else old(edits) + 1
      ensures Aside(p)
    {
      OperateKeeps(Snapshot(), p, WriteActivate(true));
      var t := ops[p].target;
      edits := if Activated(accounts, t) == accounts then edits else edits + 1;
      accounts := Activated(accounts, t);
      ops := ops[p := ActStart(t, ops[p].restoring)];
    }

    /** The driver's start, and what follows its failure. */
    method StartRuntime(p: Platform, ok: bool, undoOk: bool)
      requires Valid() && p in ops && ops[p].ActStart?
      modifies this`ops, this`accounts, this`runtimes, this`active, this`edits
      ensures Valid() && Counted()
      ensures if ok then p in ops && ops[p].ActLoop? && ops[p].target == old(ops[p]).target else p !in ops
      ensures old(ops[p]).restoring ==> accounts == old(accounts) && edits == old(edits)
      ensures SlotsKept(old(active), active, p) && (!ok ==> active == old(active))
      ensures if ok || old(ops[p]).restoring || !undoOk then accounts == old(accounts)
              else SwitchedOff(old(accounts), accounts, old(ops[p]).target)
      ensures Aside(p)
    {
      if ok {
        EnterSlot(p, undoOk);
      } else {
        FailStart(p, undoOk);
      }
    }

    /** The driver runs: its runtime is put into the slot. */
    method EnterSlot(p: Platform, ghost undoOk: bool)
      requires Valid() && p in ops && ops[p].ActStart?
      modifies this`ops, this`runtimes, this`active
      ensures Valid() && p in ops && ops[p].ActLoop? && ops[p].target == old(ops[p]).target
      ensures SlotsKept(old(active), active, p) && p in active
      ensures Aside(p)
    {
      var t := ops[p].target;
      var rid := Fresh(runtimes.Keys);
      ghost var before := Snapshot();
      runtimes := runtimes[rid := NewRuntime(t, p)];
      active := active[p := rid];
      ops := ops[p := ActLoop(t, ops[p].restoring, rid)];
      assert Snapshot() == OpNext(before, p, StartDriver(true, rid, undoOk));
      OperateKeeps(before, p, StartDriver(true, rid, undoOk));
    }

    /** `recordActivationFailure` */
    method FailStart(p: Platform, undoOk: bool)
      requires Valid() && p in ops && ops[p].ActStart?
      modifies this`ops, this`accounts, this`edits
      ensures Valid() && Counted() && p !in ops
      ensures if old(ops[p]).restoring || !undoOk then accounts == old(accounts) && edits == old(edits)
              else SwitchedOff(old(accounts), accounts, old(ops[p]).target)
      ensures Aside(p)
    {
      StartTarget(Snapshot(), p);
      ghost var rid := Fresh(runtimes.Keys);
      ghost var before := Snapshot();
      if !ops[p].restoring && undoOk {
        accounts := Deactivated(accounts, ops[p].target);
        edits := edits + 1;
      }
      ops := ops - {p};
      assert Snapshot() == OpNext(before, p, StartDriver(false, rid, undoOk));
      OperateKeeps(before, p, StartDriver(false, rid, undoOk));
    }

    /** `startIngest` of a new runtime, the last step of an activation. */
    method StartLoopOf(p: Platform)
      requires Valid() && p in ops && ops[p].ActLoop?
      modifies this`ops, this`runtimes
      ensures Valid() && p !in ops && Runs(Snapshot(), p, old(ops[p]).target) && Live(Snapshot(), active[p])
      ensures Aside(p)
    {
      ghost var before := Snapshot();
      AnyPlatform(before, p);
      var rid := ops[p].rid;
      runtimes := runtimes[rid := StartIngest(runtimes[rid])];
      ops := ops - {p};
      assert Snapshot() == OpNext(before, p, StartLoop);
      OperateKeeps(before, p, StartLoop);
    }

    /** From the empty slot to the running driver. */
    method Launch(p: Platform, w: World) returns (ok: bool)
      requires Valid() && p in ops && ops[p].ActWrite?
      modifies this
      ensures Valid() && p !in ops
      ensures ok ==> Runs(Snapshot(), p, old(ops[p]).target)
      ensures old(ops[p]).restoring && OneActive(old(accounts)) ==> edits == old(edits) && OneActive(accounts)
      ensures w.writeOk && !w.startOk && w.undoOk && !old(ops[p]).restoring ==> Off(accounts, old(ops[p]).target)
      ensures Silent(w) ==> ok == (w.writeOk && w.startOk) && (!ok ==> active == old(active))
      ensures Silent(w) ==> if w.writeOk
                            then Switched(old(accounts), accounts, old(ops[p]).target, w.startOk || old(ops[p]).restoring || !w.undoOk)
                            else accounts == old(accounts)
      ensures Silent(w) && old(ops[p]).restoring && OneActive(old(accounts)) ==>
                accounts == old(accounts) && SlotsKept(old(active), active, p)
      ensures Silent(w) ==> Aside(p)
    {
      Others(p, w.beforeWrite);
      ghost var t := ops[p].target;
      ok := WriteActive(p, w.writeOk);
      if ok {
        ghost var written := accounts;
        ok := Begin(p, w);
        if SwitchedOff(written, accounts, t) && Silent(w) { SwitchedBack(old(accounts), written, accounts, t); }
      }
    }

    /** From the written registry to the running driver. */
    method Begin(p: Platform, w: World) returns (ok: bool)
      requires Valid() && p in ops && ops[p].ActStart?
      modifies this
      ensures Valid() && p !in ops && ok == w.startOk
      ensures ok ==> Runs(Snapshot(), p, old(ops[p]).target)
      ensures old(ops[p]).restoring && OneActive(old(accounts)) ==> edits == old(edits) && OneActive(accounts)
      ensures !w.startOk && w.undoOk && !old(ops[p]).restoring ==> Off(accounts, old(ops[p]).target)
      ensures Silent(w) && old(ops[p]).restoring ==> accounts == old(accounts) && SlotsKept(old(active), active, p)
      ensures Silent(w) ==> if w.startOk || old(ops[p]).restoring || !w.undoOk then accounts == old(accounts)
                            else SwitchedOff(old(accounts), accounts, old(ops[p]).target)
      ensures Silent(w) && !ok ==> active == old(active)
      ensures Silent(w) ==> Aside(p)
    {
      Others(p, w.whileStarting);
      StartRuntime(p, w.startOk, w.undoOk);
      ok := w.startOk;
      if ok {
        Others(p, w.beforeLoop);
        StartLoopOf(p);
      }
    }

    /** What the checks under the lock decided to go on with. */
    method Pursue(p: Platform, w: World) returns (ok: bool)
      requires Valid() && p in ops && (ops[p].ActWrite? || (ops[p].ActStop? && ops[p].pc.Begun?))
      modifies this
      ensures Valid() && p !in ops
      ensures ok ==> Runs(Snapshot(), p, old(ops[p]).target)
      ensures Silent(w) ==> ok == ((old(ops[p]).ActStop? ==> old(ops[p]).rid in old(runtimes) && Stoppable(old(runtimes)[old(ops[p]).rid], w))
                                   && w.writeOk && w.startOk)
      ensures Silent(w) ==>
                if (old(ops[p]).ActStop? ==> old(ops[p]).rid in old(runtimes) && Stoppable(old(runtimes)[old(ops[p]).rid], w)) && w.writeOk
                then Switched(old(accounts), accounts, old(ops[p]).target, w.startOk || old(ops[p]).restoring || !w.undoOk)
                else accounts == old(accounts)
      ensures old(ops[p]).ActWrite? && old(ops[p]).restoring && OneActive(old(accounts)) ==> edits == old(edits) && OneActive(accounts)
      ensures Silent(w) && old(ops[p]).ActWrite? && old(ops[p]).restoring && OneActive(old(accounts)) ==>
                accounts == old(accounts) && SlotsKept(old(active), active, p)
      ensures Silent(w) && old(ops[p]).ActWrite? ==> Aside(p)
    {
      ok := true;
      if ops[p].ActStop? {
        StopHolds(Snapshot(), p);
        ok := StopRuntime(p, w);
      }
      if ok {
        ok := Launch(p, w);
      }
    }

    /** The checks of `activate` under the lock: an answer, or something to go on with. */
    method Examine(p: Platform, t: Id, restoring: bool, w: World) returns (done: bool, r: Outcome)
      requires Valid() && p in ops && ops[p] == ActCheck(t, restoring)
      modifies this
      ensures Valid() && edits == old(edits) && (OneActive(old(accounts)) ==> OneActive(accounts))
      ensures done ==> p !in ops && (r.Running? ==> Runs(Snapshot(), p, t)) && (r.Skipped? ==> restoring)
                       && (r.Running? || r.Skipped? || r.Failed?)
      ensures !done ==> p in ops && ops[p].target == t && (ops[p].ActWrite? || (ops[p].ActStop? && ops[p].pc.Begun?))
                        && ops[p].restoring == restoring && (restoring && OneActive(accounts) ==> ops[p].ActWrite?)
                        && (if ops[p].ActWrite? then p !in active else p in active && ops[p].rid == active[p])
      ensures Silent(w) ==> Snapshot() == old(Snapshot()).(ops := ops) && (done <==> Settled(old(Snapshot()), p, t, restoring, w))
                            && (done ==> r == Refusal(old(Snapshot()), t, restoring, w))
      ensures Silent(w) ==> Aside(p)
    {
      Others(p, w.beforeCheck);
      Preview(Snapshot(), p, w.installed);
      if restoring && Registered(accounts, t) && !accounts[t].active {
        r := Skipped;
      } else if !Registered(accounts, t) || closed || !w.installed {
        r := Failed;
      } else {
        r := Running;
      }
      var next := Check(p, CheckActivate(w.installed));
      done := next.Released?;
    }

    /** `activate` under the lock, after the stale snapshot was taken. */
    method ActivateLocked(p: Platform, t: Id, restoring: bool, w: World) returns (r: Outcome)
      requires Valid() && p in ops && ops[p] == ActCheck(t, restoring)
      modifies this
      ensures Valid() && p !in ops && !r.TimedOut? && !r.Stopped?
      ensures (r.Running? || r.Unwell? ==> Runs(Snapshot(), p, t)) && (r.Skipped? || r.Unwell? ==> restoring)
      ensures restoring && OneActive(old(accounts)) ==> edits == old(edits) && OneActive(accounts)
      ensures Silent(w) && restoring && OneActive(old(accounts)) ==>
                accounts == old(accounts) && SlotsKept(old(active), active, p) && (p in old(active) ==> active == old(active))
      ensures Silent(w) ==> r == LockedActivation(old(Snapshot()), p, t, restoring, w) && Registers(old(Snapshot()), accounts, p, t, restoring, w)
      ensures Silent(w) && restoring && OneActive(old(accounts)) ==> Aside(p)
    {
      var done;
      done, r := Examine(p, t, restoring, w);
      if !done {
        var ok := Pursue(p, w);
        r := if ok then Running else Failed;
      }
      if r.Running? && restoring && !w.statusOk {
        r := Unwell;
      }
    }

    /** `activate`: a busy lock is waited for, as long as the context lasts, while others go on. */
    method Activate(t: Id, restoring: bool, w: World) returns (r: Outcome)
      requires Valid()
      modifies this
      ensures Valid()
      ensures r.Running? || r.Unwell? ==> Registered(accounts, t) && accounts[t].active && Find(Snapshot(), t).Driver?
      ensures r.Skipped? || r.Unwell? ==> restoring
      ensures restoring && OneActive(old(accounts)) ==> edits == old(edits) && OneActive(accounts)
      ensures Silent(w) ==> r == Activation(old(Snapshot()), t, restoring, w)
      ensures Silent(w) ==>
                if Registered(old(accounts), t) && old(accounts)[t].platform !in old(ops)
                then Registers(old(Snapshot()), accounts, old(accounts)[t].platform, t, restoring, w)
                else accounts == old(accounts)
      ensures Silent(w) && !restoring && r.Failed? && !w.startOk && w.undoOk && Undertaken(old(Snapshot()), t, w) ==> Off(accounts, t)
      ensures Silent(w) && restoring && OneActive(old(accounts)) ==>
                accounts == old(accounts) && (forall q :: q in old(active) ==> q in active && active[q] == old(active)[q])
      ensures Registered(old(accounts), t) ==> (r.TimedOut? <==> old(accounts)[t].platform in ops)
      ensures Silent(w) && restoring && OneActive(old(accounts)) ==> closed == old(closed) && ops.Keys == old(ops).Keys
    {
      if !Registered(accounts, t) {
        return Failed;
      }
      var p := accounts[t].platform;
      Wait(w.beforeLock);
      if p in ops {
        return TimedOut;
      }
      if !Registered(accounts, t) || accounts[t].platform != p {
        return Failed;
      }
      r := ActivateOn(p, t, restoring, w);
      if Runs(Snapshot(), p, t) {
        RunningIsFound(Snapshot(), p, t);
      }
    }

    /** `activate` from the free lock on. */
    method ActivateOn(p: Platform, t: Id, restoring: bool, w: World) returns (r: Outcome)
      requires Valid() && p !in ops && Registered(accounts, t) && accounts[t].platform == p
      modifies this
      ensures Valid() && p !in ops && !r.TimedOut? && !r.Stopped?
      ensures (r.Running? || r.Unwell? ==> Runs(Snapshot(), p, t)) && (r.Skipped? || r.Unwell? ==> restoring)
      ensures restoring && OneActive(old(accounts)) ==> edits == old(edits) && OneActive(accounts)
      ensures Silent(w) && restoring && OneActive(old(accounts)) ==>
                accounts == old(accounts) && SlotsKept(old(active), active, p) && (p in old(active) ==> active == old(active))
      ensures Silent(w) ==> r == LockedActivation(old(Snapshot()), p, t, restoring, w) && Registers(old(Snapshot()), accounts, p, t, restoring, w)
      ensures Silent(w) && restoring && OneActive(old(accounts)) ==> Aside(p)
    {
      Lock(p, LockActivate(t, restoring));
      LockedAlike(old(Snapshot()), ops, p, t, restoring, w);
      r := ActivateLocked(p, t, restoring, w);
    }

    /** `Restore`: every account of the list that was active and not being deleted is activated
        again.  With one active account per platform, and whatever others do meanwhile, no section of
        it changes the registry or empties a slot; undisturbed, registry and slots stay as they are. */
    method Restore(list: seq<Id>, worlds: seq<World>) returns (failures: nat)
      requires Valid() && |worlds| == |list|
      modifies this
      ensures Valid() && failures <= |list|
      ensures OneActive(old(accounts)) ==> edits == old(edits) && OneActive(accounts)
      ensures (forall k :: 0 <= k < |list| ==> Silent(worlds[k])) && OneActive(old(accounts)) ==>
                accounts == old(accounts) && (forall q :: q in old(active) ==> q in active && active[q] == old(active)[q])
      ensures Calm(old(Snapshot()), worlds) && (forall k :: 0 <= k < |list| ==> Fit(worlds[k]) && worlds[k].statusOk) ==> failures == 0
      ensures Calm(old(Snapshot()), worlds) && failures == 0 ==>
                forall k :: 0 <= k < |list| && Wanted(old(accounts), list[k]) ==> Find(Snapshot(), list[k]).Driver? && worlds[k].statusOk
      ensures Calm(old(Snapshot()), worlds) ==>
                forall k :: 0 <= k < |list| && Wanted(old(accounts), list[k]) && Fit(worlds[k]) ==> Find(Snapshot(), list[k]).Driver?
    {
      failures := 0;
      var snapshot := accounts;
      ghost var calm := Calm(Snapshot(), worlds);
      for i := 0 to |list|
        invariant Valid() && failures <= i
        invariant OneActive(snapshot) ==> edits == old(edits) && OneActive(accounts)
        invariant (forall k :: 0 <= k < i ==> Silent(worlds[k])) && OneActive(snapshot) ==>
                    accounts == snapshot && (forall q :: q in old(active) ==> q in active && active[q] == old(active)[q])
        invariant calm ==> Calm(Snapshot(), worlds) && accounts == snapshot
        invariant calm && (forall k :: 0 <= k < i ==> Fit(worlds[k]) && worlds[k].statusOk) ==> failures == 0
        invariant calm && failures == 0 ==>
                    forall k :: 0 <= k < i && Wanted(snapshot, list[k]) ==> snapshot[list[k]].platform in active && worlds[k].statusOk
        invariant calm ==>
                    forall k :: 0 <= k < i && Wanted(snapshot, list[k]) && Fit(worlds[k]) ==> snapshot[list[k]].platform in active
      {
        if Registered(snapshot, list[i]) && snapshot[list[i]].active {
          if calm { Restored(Snapshot(), list[i], worlds[i]); }
          var r := Activate(list[i], true, worlds[i]);
          if r.Failed? || r.TimedOut? || r.Unwell? {
            failures := failures + 1;
          }
        }
      }
      forall k | calm && 0 <= k < |list| && Wanted(snapshot, list[k]) && snapshot[list[k]].platform in active
        ensures Find(Snapshot(), list[k]).Driver?
      {
        SlotIsOf(Snapshot(), list[k]);
      }
    }

    /** `Deactivate`: on success the account is inactive and nothing runs for it. */
    method Deactivate(t: Id, w: World) returns (r: Outcome)
      requires Valid()
      modifies this
      ensures Valid()
      ensures Registered(old(accounts), t) ==> (r.TimedOut? <==> old(accounts)[t].platform in ops)
      ensures r.Stopped? ==> t in accounts && !accounts[t].active && Find(Snapshot(), t) == Refused
      ensures r.Stopped? || r.Failed? || r.TimedOut?
      ensures Silent(w) ==> r == Deactivation(old(Snapshot()), t, w)
      ensures Silent(w) ==> if r.Stopped? then SwitchedOff(old(accounts), accounts, t) else accounts == old(accounts)
    {
      if !Registered(accounts, t) {
        return Failed;
      }
      var p := accounts[t].platform;
      Wait(w.beforeLock);
      if p in ops {
        return TimedOut;
      }
      if !Registered(accounts, t) || accounts[t].platform != p {
        return Failed;
      }
      Lock(p, LockDeactivate(t));
      var ok := DeactivateLocked(p, t, w);
      r := if ok then Stopped else Failed;
    }

    method DeactivateLocked(p: Platform, t: Id, w: World) returns (ok: bool)
      requires Valid() && p in ops && ops[p] == OffCheck(t)
      modifies this
      ensures Valid() && p !in ops
      ensures ok ==> t in accounts && !accounts[t].active && Find(Snapshot(), t) == Refused
      ensures Silent(w) && Registered(old(accounts), t) ==>
                ok == ((Runs(old(Snapshot()), p, t) ==> Stoppable(old(runtimes)[old(active)[p]], w)) && w.writeOk)
      ensures Silent(w) ==> if ok then SwitchedOff(old(accounts), accounts, t) else accounts == old(accounts)
    {
      ok := Clear(p, t, w);
      if ok {
        Others(p, w.beforeWrite);
        ok := WriteInactive(p, w.writeOk);
      }
    }

    /** From the lock to the emptied slot. */
    method Clear(p: Platform, t: Id, w: World) returns (ok: bool)
      requires Valid() && p in ops && ops[p] == OffCheck(t)
      modifies this
      ensures Valid() && (if ok then p in ops && ops[p] == OffWrite(t) else p !in ops)
      ensures Silent(w) ==> accounts == old(accounts)
      ensures Silent(w) && Registered(old(accounts), t) ==>
                ok == (Runs(old(Snapshot()), p, t) ==> Stoppable(old(runtimes)[old(active)[p]], w))
    {
      Others(p, w.beforeCheck);
      var next := Check(p, CheckDeactivate);
      ok := next.Held?;
      if ok && next.op.OffStop? {
        StopHolds(Snapshot(), p);
        ok := StopRuntime(p, w);
      }
    }

    method WriteInactive(p: Platform, writeOk: bool) returns (ok: bool)
      requires Valid() && p in ops && ops[p].OffWrite?
      modifies this`ops, this`accounts, this`edits
      ensures Valid() && p !in ops && ok == writeOk && Counted()
      ensures ok ==> var t := old(ops[p]).target;
                     t in accounts && !accounts[t].active && Find(Snapshot(), t) == Refused
      ensures if ok then SwitchedOff(old(accounts), accounts, old(ops[p]).target) else accounts == old(accounts)
    {
      OperateKeeps(Snapshot(), p, WriteDeactivate(writeOk));
      AnyPlatform(Snapshot(), p);
      ok := writeOk;
      if ok {
        accounts := Deactivated(accounts, ops[p].target);
        edits := edits + 1;
      }
      ops := ops - {p};
      AnyPlatform(Snapshot(), p);
    }
  }

  /** `previous` is stopped only for another account, and never by a restore. */
  lemma Preview(s: State, p: Platform, installed: bool)
    requires Inv(s) && p in s.ops && s.ops[p].ActCheck?
    ensures var next := OpHeld(s, p, CheckActivate(installed));
            && (next.Held? ==> next.op.ActWrite? || next.op.ActStop?)
            && (next.Held? && s.ops[p].restoring && OneActive(s.accounts) ==> next.op.ActWrite?)
            && (next.Held? && next.op.ActWrite? ==> p !in s.active)
            && (next.Held? ==> next.op.target == s.ops[p].target && next.op.restoring == s.ops[p].restoring
                               && (next.op.ActStop? ==> next.op.pc.Begun? && p in s.active && next.op.rid == s.active[p]))
            && (next.Released? <==> !Admits(s, s.ops[p].target, s.ops[p].restoring, installed) || Runs(s, p, s.ops[p].target))
  {
    AnyPlatform(s, p);
    if s.ops[p].restoring && OneActive(s.accounts) {
      RestoreStep(s, p, CheckActivate(installed));
    }
  }

  /** What an activation may rely on when it writes. */
  lemma WriteTarget(s: State, p: Platform)
    requires Inv(s) && p in s.ops && s.ops[p].ActWrite?
    ensures Registered(s.accounts, s.ops[p].target) && (s.ops[p].restoring ==> s.accounts[s.ops[p].target].active)
  {
    AnyPlatform(s, p);
  }

  /** Neither the answer nor the registry depends on who holds which lock. */
  lemma LockedAlike(s: State, ops: map<Platform, Op>, p: Platform, t: Id, restoring: bool, w: World)
    ensures LockedActivation(s.(ops := ops), p, t, restoring, w) == LockedActivation(s, p, t, restoring, w)
    ensures forall after :: Registers(s.(ops := ops), after, p, t, restoring, w) <==> Registers(s, after, p, t, restoring, w)
  {
  }

  /** A daemon that starts: nobody else acts, no lock is held, one active account per platform. */
  ghost predicate Calm(s: State, worlds: seq<World>) {
    !s.closed && s.ops == map[] && OneActive(s.accounts) && forall k :: 0 <= k < |worlds| ==> Silent(worlds[k])
  }

  predicate Wanted(accounts: map<Id, Account>, t: Id) {
    Registered(accounts, t) && accounts[t].active
  }

  predicate Fit(w: World) {
    w.installed && w.writeOk && w.startOk
  }

  /** The slot of a platform holds its one active account. */
  lemma SlotIsOf(s: State, t: Id)
    requires Inv(s) && OneActive(s.accounts) && Wanted(s.accounts, t) && s.accounts[t].platform in s.active
    ensures Runs(s, s.accounts[t].platform, t) && Find(s, t).Driver?
  {
    AnyPlatform(s, s.accounts[t].platform);
  }

  /** What restoring a wanted account answers. */
  lemma Restored(s: State, t: Id, w: World)
    requires Inv(s) && !s.closed && s.ops == map[] && OneActive(s.accounts) && Wanted(s.accounts, t)
    ensures var r := Activation(s, t, true, w);
            && (r.Running? || r.Unwell? || r.Failed?) && (Fit(w) ==> !r.Failed?) && (!r.Failed? ==> (r.Running? <==> w.statusOk))
  {
    if s.accounts[t].platform in s.active {
      SlotIsOf(s, t);
    }
  }

  predicate Off(accounts: map<Id, Account>, t: Id) {
    t in accounts && !accounts[t].active
  }

  lemma StartTarget(s: State, p: Platform)
    requires Inv(s) && p in s.ops && s.ops[p].ActStart?
    ensures s.ops[p].target in s.accounts
  {
    AnyPlatform(s, p);
  }

  /** Switched on and then off again. */
  lemma SwitchedBack(a: map<Id, Account>, b: map<Id, Account>, c: map<Id, Account>, t: Id)
    requires Switched(a, b, t, true) && SwitchedOff(b, c, t)
    ensures Switched(a, c, t, false)
  {
  }

  lemma RunningIsFound(s: State, p: Platform, t: Id)
    requires Inv(s) && Runs(s, p, t)
    ensures Registered(s.accounts, t) && s.accounts[t].active && Find(s, t).Driver?
  {
    AnyPlatform(s, p);
  }

  lemma RestoreKeeps(accounts: map<Id, Account>, t: Id)
    requires t in accounts
    ensures OneActive(accounts) && accounts[t].active ==> Activated(accounts, t) == accounts
  {
  }

  lemma StopHolds(s: State, p: Platform)
    requires Inv(s) && p in s.ops && Stops(s.ops[p])
    ensures Stopping(s, p) && s.ops[p].pc.gen == s.runtimes[s.ops[p].rid].gen
  {
    AnyPlatform(s, p);
  }

  lemma GivesUp(s: State, p: Platform, ticket: Ticket)
    requires Inv(s) && Stopping(s, p) && StopEnabled(s, p, StopTimeout(ticket))
    ensures Inv(s.(repairs := s.repairs[ticket := Repair(s.ops[p].rid, s.ops[p].pc.gen)], ops := s.ops - {p}))
  {
    StopsKeep(s, p, StopTimeout(ticket));
    assert s.runtimes == s.runtimes[s.ops[p].rid := s.runtimes[s.ops[p].rid]];
  }

  lemma Drains(s: State, p: Platform)
    requires Inv(s) && Stopping(s, p) && StopEnabled(s, p, StopDone)
    ensures Inv(s.(ops := s.ops[p := WithPc(s.ops[p], Drained(s.ops[p].pc.gen))]))
  {
    StopsKeep(s, p, StopDone);
    assert s.runtimes == s.runtimes[s.ops[p].rid := s.runtimes[s.ops[p].rid]];
  }
}
