/** `performAuthAction` as it runs, with the sections of the monitor and of every other request let
    in wherever the entry's mutex is free. */
module AuthService {
  import opened Common
  import opened AuthChallenge
  import opened AuthSafety
  import opened AuthOnline
  import opened AuthEntry

  ghost predicate Reachable(s: State) {
    exists snapshot, now, expiresAt, es :: s == Run(Begin(snapshot, now, expiresAt), es)
  }

  lemma {:induction false} RunAppend(s: State, es: seq<Event>, e: Event)
    ensures Run(s, es + [e]) == Step(Run(s, es), e)
    decreases |es|
  {
    if es == [] {
      assert [e][1..] == [];
    } else {
      assert (es + [e])[1..] == es[1..] + [e];
      RunAppend(Step(s, es[0]), es[1..], e);
    }
  }

  lemma ReachableStep(s: State, e: Event)
    requires Reachable(s)
    ensures Reachable(Step(s, e))
  {
    var snapshot, now, expiresAt, es :| s == Run(Begin(snapshot, now, expiresAt), es);
    RunAppend(Begin(snapshot, now, expiresAt), es, e);
    assert Step(s, e) == Run(Begin(snapshot, now, expiresAt), es + [e]);
  }

  lemma ReachableSafe(s: State)
    requires Reachable(s)
    ensures ActionInv(s) && OnlineInv(s)
  {
    var snapshot, now, expiresAt, es :| s == Run(Begin(snapshot, now, expiresAt), es);
    RunKeeps(Begin(snapshot, now, expiresAt), es);
    BeginOnline(snapshot, now, expiresAt);
    RunOnline(Begin(snapshot, now, expiresAt), es);
  }

  /** A step of the request thread `tid`. */
  predicate StepOf(e: Event, tid: Tid) {
    (e.ActBegin? || e.ActSnapshot? || e.ActReserve? || e.ActReturn? || e.ActRelease? || e.ActLeave?
     || e.CodeBegin? || e.CodeSnapshot? || e.CodeReturn? || e.CodeLeave?) && e.tid == tid
  }

  /** What nobody else can touch while `tid` is inside the action section. */
  ghost predicate SameHold(s: State, s': State, tid: Tid) {
    tid in s.threads && tid in s'.threads && s'.threads[tid] == s.threads[tid] && s'.books == s.books && s'.calls == s.calls
  }

  /** Single flight protects: while a thread is inside the action section, no other step moves it,
      the attempt accounts, the tombstones or the history of driver calls. */
  lemma FlightProtects(s: State, e: Event, tid: Tid)
    requires SingleFlight(s.books.inFlight, s.code.inFlight, s.threads)
    requires tid in s.threads && IsAction(s.threads[tid]) && !StepOf(e, tid)
    ensures SameHold(s, Step(s, e), tid)
  {
    match e
    case ActBegin(_, _, _, _) =>
    case ActSnapshot(u, _) => assert u in s.threads && IsAction(s.threads[u]) ==> u == tid;
    case ActReserve(u, _) => assert u in s.threads && IsAction(s.threads[u]) ==> u == tid;
    case ActReturn(u, _) => assert u in s.threads && IsAction(s.threads[u]) ==> u == tid;
    case ActRelease(u) => assert u in s.threads && IsAction(s.threads[u]) ==> u == tid;
    case ActLeave(u) => assert u in s.threads && IsAction(s.threads[u]) ==> u == tid;
    case CodeBegin(_, _) =>
    case CodeSnapshot(_, _) =>
    case CodeReturn(_, _) =>
    case CodeLeave(_) =>
    case _ =>
  }

  method OthersStep(s: State, e: Event, tid: Tid) returns (s': State)
    requires Reachable(s) && tid in s.threads && IsAction(s.threads[tid])
    ensures Reachable(s') && SameHold(s, s', tid)
  {
    s' := s;
    if !StepOf(e, tid) {
      ReachableSafe(s);
      FlightProtects(s, e, tid);
      ReachableStep(s, e);
      s' := Step(s, e);
    }
  }

  method OthersRun(s: State, es: seq<Event>, tid: Tid) returns (s': State)
    requires Reachable(s) && tid in s.threads && IsAction(s.threads[tid])
    ensures Reachable(s') && SameHold(s, s', tid) && (es == [] ==> s' == s)
  {
    s' := s;
    for i := 0 to |es|
      invariant Reachable(s') && SameHold(s, s', tid) && (i == 0 ==> s' == s)
    {
      s' := OthersStep(s', es[i], tid);
    }
  }

  /** What one request meets: clocks, the two answers of the driver, and the sections of others. */
  datatype World = World(
    enteredAt: Time, beforeSnapshot: seq<Event>, answer: Option<Snapshot>,
    beforeReserve: seq<Event>, reservedAt: Time, atDriver: seq<Event>, err: DriverError,
    beforeRelease: seq<Event>, beforeLeave: seq<Event>)

  predicate Silent(w: World) {
    w.beforeSnapshot == [] && w.beforeReserve == [] && w.atDriver == [] && w.beforeRelease == [] && w.beforeLeave == []
  }

  datatype Performed = Refused | Called(key: ReplayKey)

  /** The entry with its threads and its history. */
  class Challenge {
    const entry: Entry
    var code: Codes
    var threads: map<Tid, Phase>
    var calls: seq<Call>
    var codes: seq<bool>
    var observed: seq<Observation>
    var reports: seq<Report>

    function Snapshot(): State
      reads this, entry
    {
      State(entry.TheView(), entry.TheBooks(), code, threads, calls, codes, observed, reports)
    }

    /** The challenge is in a state that some run of its threads reaches. */
    ghost predicate Valid()
      reads this, entry
    {
      Reachable(Snapshot())
    }

    constructor (snapshot: AuthChallenge.Snapshot, now: Time, expiresAt: Time)
      ensures Valid() && Snapshot() == Begin(snapshot, now, expiresAt) && fresh(entry)
    {
      var s := Begin(snapshot, now, expiresAt);
      entry := new Entry(s.view, s.books);
      code, threads, calls, codes, observed, reports := s.code, s.threads, s.calls, s.codes, s.observed, s.reports;
      new;
      assert Snapshot() == Run(Begin(snapshot, now, expiresAt), []);
    }

    method Others(tid: Tid, es: seq<Event>)
      requires Valid() && tid in threads && IsAction(threads[tid])
      modifies this, entry
      ensures Valid() && SameHold(old(Snapshot()), Snapshot(), tid)
      ensures es == [] ==> Snapshot() == old(Snapshot())
    {
      var s := OthersRun(Snapshot(), es, tid);
      entry.Adopt(s.view, s.books);
      code, threads, calls, codes, observed, reports := s.code, s.threads, s.calls, s.codes, s.observed, s.reports;
      assert Snapshot() == s;
    }

    /** The first section: the flag is taken, or the request is refused and nothing changes. */
    method Enter(tid: Tid, id: ActionId, confirmed: bool, now: Time) returns (entered: bool)
      requires Valid() && tid !in threads
      modifies this, entry
      ensures Valid() && entered == MayEnter(old(entry.TheView()), old(entry.TheBooks()), id, confirmed, now)
      ensures !entered ==> Snapshot() == old(Snapshot())
      ensures entered ==> threads == old(threads)[tid := Gated(id)] && calls == old(calls)
                          && entry.TheView() == old(entry.TheView()) && entry.TheBooks() == old(entry.TheBooks()).(inFlight := true)
    {
      ReachableStep(Snapshot(), ActBegin(tid, id, confirmed, now));
      entered := entry.EnterAction(id, confirmed, now);
      if entered {
        threads := threads[tid := Gated(id)];
      }
    }

    method Advertised(tid: Tid, id: ActionId, answer: Option<AuthChallenge.Snapshot>) returns (key: Option<ReplayKey>)
      requires Valid() && tid in threads && threads[tid] == Gated(id)
      modifies this`threads
      ensures Valid() && key == Choose(answer, id)
      ensures threads == old(threads)[tid := if key.Some? then Chosen(id, key.value) else Leaving]
    {
      ReachableStep(Snapshot(), ActSnapshot(tid, answer));
      key := None;
      if answer.Some? {
        key := entry.ChooseAdvertised(answer.value, id);
      }
      threads := threads[tid := if key.Some? then Chosen(id, key.value) else Leaving];
    }

    /** The second section, and with it the driver call. */
    method Reserve(tid: Tid, id: ActionId, key: ReplayKey, now: Time) returns (reserved: bool)
      requires Valid() && tid in threads && threads[tid] == Chosen(id, key)
      modifies this, entry
      ensures Valid() && reserved == MayCall(old(entry.TheView()), old(entry.TheBooks()), id, key, now)
      ensures threads == old(threads)[tid := if reserved then Calling(id, key) else Leaving]
      ensures entry.TheBooks() == if reserved then ReserveCall(old(entry.TheBooks()), id, key) else old(entry.TheBooks())
      ensures calls == if reserved then old(calls) + [Call(id, key, None)] else old(calls)
    {
      ReachableStep(Snapshot(), ActReserve(tid, now));
      reserved := entry.ReserveAction(id, key, now);
      if reserved {
        calls := calls + [Call(id, key, None)];
        threads := threads[tid := Calling(id, key)];
      } else {
        threads := threads[tid := Leaving];
      }
    }

    /** The driver has answered. */
    method Return(tid: Tid, id: ActionId, key: ReplayKey, err: DriverError) returns (rejected: bool)
      requires Valid() && tid in threads && threads[tid] == Calling(id, key) && calls != []
      modifies this`threads, this`calls
      ensures Valid() && rejected == !MayHaveActed(err)
      ensures threads == old(threads)[tid := if rejected then Releasing(id, key) else Leaving]
      ensures calls == old(calls)[..|old(calls)| - 1] + [old(calls)[|old(calls)| - 1].(answer := Some(err))]
    {
      ReachableStep(Snapshot(), ActReturn(tid, err));
      rejected := DefinitivelyRejected(err);
      threads := threads[tid := if rejected then Releasing(id, key) else Leaving];
      calls := calls[|calls| - 1 := calls[|calls| - 1].(answer := Some(err))];
    }

    method Release(tid: Tid, id: ActionId, key: ReplayKey)
      requires Valid() && tid in threads && threads[tid] == Releasing(id, key)
      modifies this`threads, entry
      ensures Valid() && threads == old(threads)[tid := Leaving]
      ensures entry.TheBooks() == ReleaseCall(old(entry.TheBooks()), id, key)
    {
      ReachableStep(Snapshot(), ActRelease(tid));
      entry.ReleaseAction(id, key);
      threads := threads[tid := Leaving];
    }

    /** The deferred section that gives the flag back. */
    method Leave(tid: Tid)
      requires Valid() && tid in threads && threads[tid] == Leaving
      modifies this`threads, entry
      ensures Valid() && threads == old(threads) - {tid}
      ensures entry.TheBooks() == old(entry.TheBooks()).(inFlight := false)
    {
      ReachableStep(Snapshot(), ActLeave(tid));
      entry.LeaveAction();
      threads := threads - {tid};
    }

    /** From the driver call to the end of its consequences. */
    method Await(tid: Tid, id: ActionId, key: ReplayKey, w: World)
      requires Valid() && tid in threads && threads[tid] == Calling(id, key)
      requires calls != [] && calls[|calls| - 1] == Call(id, key, None)
      modifies this, entry
      ensures Valid() && tid in threads && threads[tid] == Leaving
      ensures calls == old(calls)[..|old(calls)| - 1] + [Call(id, key, Some(w.err))]
      ensures entry.TheBooks() == if MayHaveActed(w.err) then old(entry.TheBooks()) else ReleaseCall(old(entry.TheBooks()), id, key)
    {
      Others(tid, w.atDriver);
      var rejected := Return(tid, id, key, w.err);
      if rejected {
        Others(tid, w.beforeRelease);
        Release(tid, id, key);
      }
    }

    /** The second section and, if it lets the request through, the call. */
    method Attempt(tid: Tid, id: ActionId, key: ReplayKey, w: World) returns (called: bool)
      requires Valid() && tid in threads && threads[tid] == Chosen(id, key)
      modifies this, entry
      ensures Valid() && tid in threads && threads[tid] == Leaving
      ensures called == MayCall(old(entry.TheView()), old(entry.TheBooks()), id, key, w.reservedAt)
      ensures !called ==> calls == old(calls) && entry.TheBooks() == old(entry.TheBooks())
      ensures called ==> calls == old(calls) + [Call(id, key, Some(w.err))]
      ensures called ==> Charged(old(entry.TheBooks()), entry.TheBooks(), id, key, w.err)
    {
      called := Reserve(tid, id, key, w.reservedAt);
      if called {
        Await(tid, id, key, w);
      }
    }

    /** From the taken flag to the last section; the flag is still up. */
    method Proceed(tid: Tid, id: ActionId, w: World) returns (r: Performed)
      requires Valid() && tid in threads && threads[tid] == Gated(id)
      modifies this, entry
      ensures Valid() && tid in threads && threads[tid] == Leaving
      ensures r.Refused? ==> calls == old(calls) && entry.TheBooks() == old(entry.TheBooks())
      ensures r.Called? ==> calls == old(calls) + [Call(id, r.key, Some(w.err))] && AdvertisedOnce(w.answer, id, r.key)
      ensures r.Called? ==> Charged(old(entry.TheBooks()), entry.TheBooks(), id, r.key, w.err)
      ensures Silent(w) ==> r == Decision(old(entry.TheView()), old(entry.TheBooks()), id, w)
    {
      Others(tid, w.beforeSnapshot);
      var key := Advertised(tid, id, w.answer);
      if key.None? {
        return Refused;
      }
      Others(tid, w.beforeReserve);
      ChosenExactly(w.answer, id, key.value);
      var called := Attempt(tid, id, key.value, w);
      r := if called then Called(key.value) else Refused;
    }

    /** The deferred end. */
    method Depart(tid: Tid, others: seq<Event>)
      requires Valid() && tid in threads && threads[tid] == Leaving
      modifies this, entry
      ensures Valid() && tid !in threads && calls == old(calls)
      ensures entry.TheBooks() == old(entry.TheBooks()).(inFlight := false)
    {
      Others(tid, others);
      Leave(tid);
    }

    /** `performAuthAction`.  On every path the thread is out again and the flag it took is down; at
        most one driver call is made, and both its tombstones stay unless the driver's error proves
        that nothing happened, in which case exactly those two are given back.  Every state on the
        way is reachable, so the challenge's guarantees hold throughout. */
    method PerformAuthAction(tid: Tid, id: ActionId, confirmed: bool, w: World) returns (r: Performed)
      requires Valid() && tid !in threads
      modifies this, entry
      ensures Valid() && tid !in threads && NoReplay(calls) && |calls| <= 6
      ensures entry.actionInFlight ==> Snapshot() == old(Snapshot())
      ensures r.Refused? ==> calls == old(calls) && entry.TheBooks() == old(entry.TheBooks())
      ensures r.Called? ==>
                && confirmed && !old(entry.closed) && w.enteredAt <= old(entry.expiresAt) && old(entry.completedAt).None?
                && AdvertisedOnce(w.answer, id, r.key) && calls == old(calls) + [Call(id, r.key, Some(w.err))]
                && !old(entry.actionInFlight) && !entry.actionInFlight
                && Charged(old(entry.TheBooks()), entry.TheBooks(), id, r.key, w.err)
      ensures Silent(w) ==> forall key: ReplayKey :: r == Called(key) <==>
                Admissible(old(entry.TheView()), old(entry.TheBooks()), id, key, confirmed, w)
    {
      var entered := Enter(tid, id, confirmed, w.enteredAt);
      r := Refused;
      if entered {
        r := Proceed(tid, id, w);
        Depart(tid, w.beforeLeave);
      }
      Guaranteed(Snapshot());
      DecidedExactly(old(entry.TheView()), old(entry.TheBooks()), id, confirmed, w);
    }
  }

  /** The first gate. */
  predicate MayEnter(v: View, b: Books, id: ActionId, confirmed: bool, now: Time) {
    !Gone(v, now) && !b.inFlight && id !in b.performedActions && confirmed
  }

  /** The guarantees of the challenge, for a caller of the object. */
  lemma Guaranteed(s: State)
    requires Reachable(s)
    ensures NoReplay(s.calls) && |s.calls| <= 6
  {
    ReachableSafe(s);
  }

  /** Whether an undisturbed request that has taken the flag reaches the driver, and with which key. */
  function Decision(v: View, b: Books, id: ActionId, w: World): Performed {
    match Choose(w.answer, id)
    case None => Refused
    case Some(key) => if MayCall(v, b, id, key, w.reservedAt) then Called(key) else Refused
  }

  /** What it takes: confirmed, nobody else inside, the challenge open at both sections, the action and its
      key advertised once and barred by no tombstone, fewer than three attempts of it and six in all. */
  ghost predicate Admissible(v: View, b: Books, id: ActionId, key: ReplayKey, confirmed: bool, w: World) {
    && confirmed && !b.inFlight && !v.closed && v.completedAt.None?
    && w.enteredAt <= v.expiresAt && w.reservedAt <= v.expiresAt
    && AdvertisedOnce(w.answer, id, key) && id !in b.performedActions && key !in b.performedKeys
    && (id in b.attempts ==> b.attempts[id] < 3) && b.total < 6
  }

  lemma DecidedExactly(v: View, b: Books, id: ActionId, confirmed: bool, w: World)
    ensures forall key: ReplayKey :: Admissible(v, b, id, key, confirmed, w) <==>
              MayEnter(v, b, id, confirmed, w.enteredAt) && Decision(v, b.(inFlight := true), id, w) == Called(key)
  {
    forall key: ReplayKey ensures Choose(w.answer, id) == Some(key) <==> AdvertisedOnce(w.answer, id, key) {
      ChosenExactly(w.answer, id, key);
    }
  }

  /** The books after one call: one more attempt of the action and in all, and both tombstones exactly when
      the driver may have acted.  The call was within the budget and barred by no tombstone. */
  ghost predicate Charged(before: Books, after: Books, id: ActionId, key: ReplayKey, err: DriverError) {
    && id !in before.performedActions && key !in before.performedKeys
    && (id in before.attempts ==> before.attempts[id] < 3) && before.total < 6
    && after.total == before.total + 1
    && after.attempts == before.attempts[id := if id in before.attempts then before.attempts[id] + 1 else 1]
    && (MayHaveActed(err) ==>
          after.performedActions == before.performedActions + {id} && after.performedKeys == before.performedKeys + {key})
    && (!MayHaveActed(err) ==>
          after.performedActions == before.performedActions && after.performedKeys == before.performedKeys)
  }
}
