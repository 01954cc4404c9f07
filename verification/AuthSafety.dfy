/** Safety of an authentication challenge over every interleaving of its threads. */
module AuthSafety {
  import opened Common
  import opened AuthChallenge

  predicate IsAction(p: Phase) {
    p.Gated? || p.Chosen? || p.Calling? || p.Releasing? || p.Leaving?
  }

  predicate IsCode(p: Phase) {
    p.CodeGated? || p.CodeCalling? || p.CodeLeaving?
  }

  /** The flag is up exactly while one thread is inside the action section. */
  ghost predicate SingleFlight(actionInFlight: bool, codeInFlight: bool, threads: map<Tid, Phase>) {
    && (forall t, u :: t in threads && u in threads && IsAction(threads[t]) && IsAction(threads[u]) ==> t == u)
    && (forall t, u :: t in threads && u in threads && IsCode(threads[t]) && IsCode(threads[u]) ==> t == u)
    && (forall t :: t in threads && IsAction(threads[t]) ==> actionInFlight)
    && (forall t :: t in threads && IsCode(threads[t]) ==> codeInFlight)
  }

  /** How often `id` was passed to the driver. */
  function Tally(calls: seq<Call>, id: ActionId): nat {
    if calls == [] then 0
    else Tally(calls[..|calls| - 1], id) + (if calls[|calls| - 1].id == id then 1 else 0)
  }

  /** The books of the entry are the history of driver calls. */
  ghost predicate Accounted(attempts: map<ActionId, nat>, total: nat, calls: seq<Call>) {
    && total == |calls| <= MaxAttemptsPerChallenge
    && (forall id :: Attempts(attempts, id) == Tally(calls, id))
    && (forall id :: Tally(calls, id) <= MaxAttemptsPerAction)
  }

  /** The driver may have acted: it said so, it failed in a way that proves nothing, or it failed after
      the action was dispatched. */
  predicate MayHaveActed(err: DriverError) {
    || err.Accepted? || err.Unclassified? || err.consumed
    || err.kind in {Unsupported, ConfirmationRequired, NotFound, SendUncertain}
  }

  /** A call that has no answer yet, or one after which the driver may have acted. */
  predicate Effectual(call: Call) {
    call.answer.None? || MayHaveActed(call.answer.value)
  }

  /** Such a call keeps both its tombstones. */
  ghost predicate Entombed(actions: set<ActionId>, keys: set<ReplayKey>, calls: seq<Call>) {
    forall i :: 0 <= i < |calls| && Effectual(calls[i]) ==> calls[i].id in actions && calls[i].key in keys
  }

  /** After such a call, no later call uses its action or its replay key. */
  ghost predicate NoReplay(calls: seq<Call>) {
    forall i, j :: 0 <= i < j < |calls| && Effectual(calls[i]) ==>
      calls[j].id != calls[i].id && calls[j].key != calls[i].key
  }

  /** The thread at the driver made the last call of the history. */
  ghost predicate LastCall(threads: map<Tid, Phase>, calls: seq<Call>) {
    forall t :: t in threads && (threads[t].Calling? || threads[t].Releasing?) ==>
      && calls != [] && calls[|calls| - 1].id == threads[t].id && calls[|calls| - 1].key == threads[t].key
      && (threads[t].Calling? ==> calls[|calls| - 1].answer.None?) && (threads[t].Releasing? ==> !Effectual(calls[|calls| - 1]))
  }

  ghost predicate ActionInv(s: State) {
    && SingleFlight(s.books.inFlight, s.code.inFlight, s.threads)
    && Accounted(s.books.attempts, s.books.total, s.calls)
    && Entombed(s.books.performedActions, s.books.performedKeys, s.calls)
    && NoReplay(s.calls) && LastCall(s.threads, s.calls)
  }

  lemma {:induction false} TallyAppend(calls: seq<Call>, c: Call, id: ActionId)
    ensures Tally(calls + [c], id) == Tally(calls, id) + (if c.id == id then 1 else 0)
  {
    assert (calls + [c])[..|calls|] == calls;
  }

  lemma {:induction false} TallySettle(calls: seq<Call>, v: DriverError, id: ActionId)
    ensures Tally(Settle(calls, v), id) == Tally(calls, id)
  {
    if calls != [] {
      assert Settle(calls, v)[..|calls| - 1] == calls[..|calls| - 1];
    }
  }

  lemma BeginKeeps(s: State, e: Event)
    requires ActionInv(s) && (e.ActBegin? || e.ActSnapshot? || e.ActLeave?)
    ensures ActionInv(Step(s, e))
  {
  }

  lemma ReserveKeeps(s: State, tid: Tid, now: Time)
    requires ActionInv(s)
    ensures ActionInv(Step(s, ActReserve(tid, now)))
  {
    if tid in s.threads && s.threads[tid].Chosen? {
      var t := s.threads[tid];
      if MayCall(s.view, s.books, t.id, t.key, now) {
        forall id ensures Tally(s.calls + [Call(t.id, t.key, None)], id) ==
                          Tally(s.calls, id) + (if t.id == id then 1 else 0)
        {
          TallyAppend(s.calls, Call(t.id, t.key, None), id);
        }
      }
    }
  }

  lemma ReturnKeeps(s: State, tid: Tid, err: DriverError)
    requires ActionInv(s)
    ensures ActionInv(Step(s, ActReturn(tid, err)))
  {
    if tid in s.threads && s.threads[tid].Calling? {
      forall id ensures Tally(Settle(s.calls, err), id) == Tally(s.calls, id) { TallySettle(s.calls, err, id); }
    }
  }

  /** Releasing a rejected call's tombstones leaves those of every accepted call in place. */
  lemma ReleaseKeeps(s: State, tid: Tid)
    requires ActionInv(s)
    ensures ActionInv(Step(s, ActRelease(tid)))
  {
  }

  lemma CodeKeeps(s: State, e: Event)
    requires ActionInv(s) && (e.CodeBegin? || e.CodeSnapshot?)
    ensures ActionInv(Step(s, e))
  {
  }

  lemma CodeEndKeeps(s: State, e: Event)
    requires ActionInv(s) && (e.CodeReturn? || e.CodeLeave?)
    ensures ActionInv(Step(s, e))
  {
  }

  /** Watching and reporting. */
  predicate Watches(e: Event) {
    e.MonitorTick? || e.MonitorObserve? || e.StateObserve? || e.ImageObserve? || e.Read? || e.Close?
  }

  /** Observing and reporting touch none of the action books. */
  lemma WatchingFrame(s: State, e: Event)
    requires Watches(e)
    ensures var s' := Step(s, e);
            && s'.threads == s.threads && s'.calls == s.calls && s'.codes == s.codes && s'.books == s.books && s'.code == s.code
  {
    match e
    case MonitorTick(_) =>
    case MonitorObserve(_, _) =>
    case StateObserve(_, _) =>
    case ImageObserve(_, _) =>
    case Read(_) =>
    case Close =>
  }

  lemma StepKeeps(s: State, e: Event)
    requires ActionInv(s)
    ensures ActionInv(Step(s, e))
  {
    match e
    case ActBegin(_, _, _, _) => BeginKeeps(s, e);
    case ActSnapshot(_, _) => BeginKeeps(s, e);
    case ActLeave(_) => BeginKeeps(s, e);
    case ActReserve(tid, now) => ReserveKeeps(s, tid, now);
    case ActReturn(tid, err) => ReturnKeeps(s, tid, err);
    case ActRelease(tid) => ReleaseKeeps(s, tid);
    case CodeBegin(_, _) => CodeKeeps(s, e);
    case CodeSnapshot(_, _) => CodeKeeps(s, e);
    case CodeReturn(_, _) => CodeEndKeeps(s, e);
    case CodeLeave(_) => CodeEndKeeps(s, e);
    case _ => WatchingFrame(s, e);
  }

  lemma {:induction false} RunKeeps(s: State, es: seq<Event>)
    requires ActionInv(s)
    ensures ActionInv(Run(s, es))
    decreases |es|
  {
    if es != [] {
      StepKeeps(s, es[0]);
      RunKeeps(Step(s, es[0]), es[1..]);
    }
  }

  ghost predicate Earned(id: ActionId, calls: seq<Call>) {
    exists i :: 0 <= i < |calls| && Effectual(calls[i]) && calls[i].id == id
  }

  ghost predicate EarnedKey(key: ReplayKey, calls: seq<Call>) {
    exists i :: 0 <= i < |calls| && Effectual(calls[i]) && calls[i].key == key
  }

  /** A thread is about to give back the tombstones of its rejected call. */
  ghost predicate Returning(threads: map<Tid, Phase>, id: ActionId) {
    exists t :: t in threads && threads[t].Releasing? && threads[t].id == id
  }

  ghost predicate ReturningKey(threads: map<Tid, Phase>, key: ReplayKey) {
    exists t :: t in threads && threads[t].Releasing? && threads[t].key == key
  }

  /** The tombstones are those of the calls that may have had an effect, and no more. */
  ghost predicate Exact(b: Books, threads: map<Tid, Phase>, calls: seq<Call>) {
    && (forall id :: id in b.performedActions <==> Earned(id, calls) || Returning(threads, id))
    && (forall key :: key in b.performedKeys <==> EarnedKey(key, calls) || ReturningKey(threads, key))
  }

  lemma ReserveExact(s: State, tid: Tid, now: Time)
    requires ActionInv(s) && Exact(s.books, s.threads, s.calls) && Enabled(s, ActReserve(tid, now))
    ensures var s' := Step(s, ActReserve(tid, now)); Exact(s'.books, s'.threads, s'.calls)
  {
    var s' := Step(s, ActReserve(tid, now));
    assert IsAction(s.threads[tid]);
    assert forall id :: !Returning(s.threads, id) && !Returning(s'.threads, id);
    assert forall key :: !ReturningKey(s.threads, key) && !ReturningKey(s'.threads, key);
    if s'.calls != s.calls {
      var call := s'.calls[|s.calls|];
      forall id ensures Earned(id, s'.calls) <==> Earned(id, s.calls) || id == call.id {
        EarnedByOne(id, s.calls, call);
      }
      forall key ensures EarnedKey(key, s'.calls) <==> EarnedKey(key, s.calls) || key == call.key {
        KeyEarnedByOne(key, s.calls, call);
      }
    }
  }

  lemma EarnedByOne(id: ActionId, calls: seq<Call>, call: Call)
    ensures Earned(id, calls + [call]) <==> Earned(id, calls) || (Effectual(call) && call.id == id)
  {
    var all := calls + [call];
    assert all[|calls|] == call;
    if Earned(id, calls) {
      var i :| 0 <= i < |calls| && Effectual(calls[i]) && calls[i].id == id;
      assert all[i] == calls[i];
    }
  }

  lemma KeyEarnedByOne(key: ReplayKey, calls: seq<Call>, call: Call)
    ensures EarnedKey(key, calls + [call]) <==> EarnedKey(key, calls) || (Effectual(call) && call.key == key)
  {
    var all := calls + [call];
    assert all[|calls|] == call;
    if EarnedKey(key, calls) {
      var i :| 0 <= i < |calls| && Effectual(calls[i]) && calls[i].key == key;
      assert all[i] == calls[i];
    }
  }

  /** The answer of the last call decides about its tombstones alone. */
  lemma ReturnExact(s: State, tid: Tid, err: DriverError)
    requires ActionInv(s) && Exact(s.books, s.threads, s.calls) && Enabled(s, ActReturn(tid, err))
    ensures var s' := Step(s, ActReturn(tid, err)); Exact(s'.books, s'.threads, s'.calls)
  {
    var s' := Step(s, ActReturn(tid, err));
    var last := s.calls[|s.calls| - 1];
    var rest := s.calls[..|s.calls| - 1];
    assert s.calls == rest + [last] && s'.calls == rest + [last.(answer := Some(err))];
    assert IsAction(s.threads[tid]);
    forall id ensures id in s'.books.performedActions <==> Earned(id, s'.calls) || Returning(s'.threads, id) {
      EarnedByOne(id, rest, last);
      EarnedByOne(id, rest, last.(answer := Some(err)));
      assert !Returning(s.threads, id);
      assert !MayHaveActed(err) ==> (Returning(s'.threads, id) <==> id == last.id) by { assert tid in s'.threads; }
      assert MayHaveActed(err) ==> !Returning(s'.threads, id);
    }
    forall key ensures key in s'.books.performedKeys <==> EarnedKey(key, s'.calls) || ReturningKey(s'.threads, key) {
      KeyEarnedByOne(key, rest, last);
      KeyEarnedByOne(key, rest, last.(answer := Some(err)));
      assert !ReturningKey(s.threads, key);
      assert !MayHaveActed(err) ==> (ReturningKey(s'.threads, key) <==> key == last.key) by { assert tid in s'.threads; }
      assert MayHaveActed(err) ==> !ReturningKey(s'.threads, key);
    }
  }

  lemma ReleaseExact(s: State, tid: Tid)
    requires ActionInv(s) && Exact(s.books, s.threads, s.calls) && Enabled(s, ActRelease(tid))
    ensures var s' := Step(s, ActRelease(tid)); Exact(s'.books, s'.threads, s'.calls)
  {
    var s', t := Step(s, ActRelease(tid)), s.threads[tid];
    assert IsAction(t);
    assert forall id :: Returning(s.threads, id) <==> id == t.id;
    assert forall key :: ReturningKey(s.threads, key) <==> key == t.key;
    assert forall id :: !Returning(s'.threads, id);
    assert forall key :: !ReturningKey(s'.threads, key);
    assert !Earned(t.id, s.calls) && !EarnedKey(t.key, s.calls);
  }

  /** The other steps neither call the driver nor touch a tombstone. */
  lemma QuietExact(s: State, e: Event)
    requires Exact(s.books, s.threads, s.calls) && !e.ActReserve? && !e.ActReturn? && !e.ActRelease?
    ensures var s' := Step(s, e); Exact(s'.books, s'.threads, s'.calls)
  {
    var s' := Step(s, e);
    if Watches(e) {
      WatchingFrame(s, e);
    } else {
      QuietFrame(s, e);
      forall id ensures Returning(s'.threads, id) <==> Returning(s.threads, id) {}
      forall key ensures ReturningKey(s'.threads, key) <==> ReturningKey(s.threads, key) {}
    }
  }

  lemma QuietFrame(s: State, e: Event)
    requires !Watches(e) && !e.ActReserve? && !e.ActReturn? && !e.ActRelease?
    ensures var s' := Step(s, e);
            && s'.calls == s.calls
            && s'.books.performedActions == s.books.performedActions && s'.books.performedKeys == s.books.performedKeys
            && (forall t :: t in s.threads && s.threads[t].Releasing? ==> t in s'.threads && s'.threads[t] == s.threads[t])
            && (forall t :: t in s'.threads && s'.threads[t].Releasing? ==> t in s.threads && s'.threads[t] == s.threads[t])
  {
  }

  lemma {:induction false} RunExact(s: State, es: seq<Event>)
    requires ActionInv(s) && Exact(s.books, s.threads, s.calls)
    ensures var s' := Run(s, es); Exact(s'.books, s'.threads, s'.calls)
    decreases |es|
  {
    if es != [] {
      var e := es[0];
      StepKeeps(s, e);
      if Enabled(s, e) && e.ActReserve? { ReserveExact(s, e.tid, e.now); }
      else if Enabled(s, e) && e.ActReturn? { ReturnExact(s, e.tid, e.err); }
      else if Enabled(s, e) && e.ActRelease? { ReleaseExact(s, e.tid); }
      else if Enabled(s, e) { QuietExact(s, e); }
      RunExact(Step(s, e), es[1..]);
    }
  }

  /** Whenever no call is at the driver or being released, an action is barred exactly when a call of it
      may have had an effect, and a replay key likewise. */
  lemma TombstonesAreExact(snapshot: Snapshot, now: Time, expiresAt: Time, es: seq<Event>)
    ensures var s := Run(Begin(snapshot, now, expiresAt), es);
            !s.books.inFlight ==>
              && (forall id :: id in s.books.performedActions <==> Earned(id, s.calls))
              && (forall key :: key in s.books.performedKeys <==> EarnedKey(key, s.calls))
  {
    RunKeeps(Begin(snapshot, now, expiresAt), es);
    RunExact(Begin(snapshot, now, expiresAt), es);
    var s := Run(Begin(snapshot, now, expiresAt), es);
    assert forall t :: t in s.threads && s.threads[t].Releasing? ==> IsAction(s.threads[t]);
  }

  /** The threads whose driver call is in flight. */
  function AtDriver(threads: map<Tid, Phase>): set<Tid> {
    set t | t in threads && threads[t].Calling?
  }

  /** In every interleaving of one challenge: at most one action call is at the driver, at most
      three per action and six in all, and whatever was not definitively rejected is never called
      again, neither by its action nor by its replay key. */
  lemma ActionsAreSafe(snapshot: Snapshot, now: Time, expiresAt: Time, es: seq<Event>)
    ensures var s := Run(Begin(snapshot, now, expiresAt), es);
            && (forall t, u :: t in AtDriver(s.threads) && u in AtDriver(s.threads) ==> t == u)
            && |s.calls| <= 6
            && (forall id :: Tally(s.calls, id) <= 3)
            && NoReplay(s.calls)
            && Entombed(s.books.performedActions, s.books.performedKeys, s.calls)
  {
    RunKeeps(Begin(snapshot, now, expiresAt), es);
  }
}
