/** The service object: the critical sections of `PrepareSend` and `CommitSend` on its own
    fields.  Every method leaves the object in a state reached by a run of the send protocol,
    so whatever is proved of all runs holds of the object. */
module SendService {
  import opened SendJournal
  import opened SendProtocol
  import opened SendSafety
  import opened SendOutcomes

  /** What the rest of the daemon does between two sections of one commit: prepare and sweep
      transactions, start and stop drivers, register accounts. */
  datatype Gaps = Gaps(
    beforeVet: seq<Event>, beforeBind: seq<Event>, beforeReserve: seq<Event>, beforeDriver: seq<Event>,
    beforeBackend: seq<Event>, atBackend: seq<Event>, beforeSettle: seq<Event>, beforeRelease: seq<Event>)

  /** Everything `CommitSend` learns from outside: clocks, disk, database, driver, backend, and the
      steps of others. */
  datatype World = World(
    others: Gaps, now: Time, later: Time, order: seq<AccountId>, unreadable: set<AccountId>,
    fault: bool, keyFault: bool, reserve: Io, refused: bool, refusedInside: bool, end: BackendEnd, settle: Io,
    removed: bool, removedAgain: bool)

  /** A step that needs neither sendMu nor the exclusive deleteMu. */
  predicate Foreign(e: Event) {
    e.Register? || e.Start? || e.Stop? || e.Prepare? || e.Reap?
  }

  /** Nobody starts or stops a driver. */
  predicate Steady(es: seq<Event>) {
    forall i :: 0 <= i < |es| ==> !es[i].Start? && !es[i].Stop?
  }

  ghost predicate SameJournals(before: Journals, after: Journals) {
    forall a :: a in before ==> a in after && after[a] == before[a]
  }

  /** The transactions marked as committing stay as they are. */
  ghost predicate SameMarked(before: map<TxnId, Prepared>, after: map<TxnId, Prepared>) {
    forall t :: t in before && before[t].committing ==> t in after && after[t] == before[t]
  }

  /** What the commit under way can rely on whatever others do: where it stands, every journal of a
      registered account, and its own transaction. */
  ghost predicate SameCommit(s: State, s': State) {
    && s'.pc == s.pc && s'.calls == s.calls && s'.replies == s.replies && s'.retired == s.retired
    && SameJournals(s.journals, s'.journals) && SameMarked(s.transactions, s'.transactions)
  }

  lemma ForeignKeeps(s: State, e: Event)
    requires Foreign(e) && TransactionsInv(s.transactions, s.issued)
    ensures SameCommit(s, Step(s, e)) && Opens(e)
    ensures !e.Start? && !e.Stop? ==> Step(s, e).active == s.active
  {
    match e
    case Register(_) =>
    case Start(_, _) =>
    case Stop(_) =>
    case Prepare(_, _, _, _, _, _) =>
    case Reap(_, _) =>
  }

  method OthersStep(s: State, ghost h: seq<Event>, e: Event) returns (s': State, ghost h': seq<Event>)
    requires s == Run(Init, h)
    ensures s' == Run(Init, h') && SameCommit(s, s') && h <= h' && (h' == h || h' == h + [e]) && (h' == h + [e] ==> Opens(e))
    ensures !e.Start? && !e.Stop? ==> s'.active == s.active
  {
    s', h' := s, h;
    if Foreign(e) {
      RunKeeps(Init, h);
      ForeignKeeps(s, e);
      RunAppend(Init, h, e);
      s', h' := Step(s, e), h + [e];
    }
  }

  method OthersRun(s: State, ghost h: seq<Event>, es: seq<Event>) returns (s': State, ghost h': seq<Event>)
    requires s == Run(Init, h)
    ensures s' == Run(Init, h') && SameCommit(s, s') && h <= h' && forall i :: |h| <= i < |h'| ==> Opens(h'[i])
    ensures Steady(es) ==> s'.active == s.active
  {
    s', h' := s, h;
    for i := 0 to |es|
      invariant Steady(es) ==> s'.active == s.active
      invariant s' == Run(Init, h') && SameCommit(s, s') && h <= h' && forall i :: |h| <= i < |h'| ==> Opens(h'[i])
    {
      s', h' := OthersStep(s', h', es[i]);
    }
  }

  /** How a reserved send is answered. */
  function Ending(w: World): Outcome {
    if !w.settle.Done? then Uncertain(SendResult(0, false, true, DurablyReserved))
    else if w.refused || w.refusedInside then Rejected
    else
      match w.end
      case Confirmed(id) => Sent(SendResult(id, true, false, NoDetail))
      case BackendError => Uncertain(SendResult(0, false, true, BackendInterrupted))
      case Unconfirmed => Uncertain(SendResult(0, false, true, IndexUnconfirmed))
  }

  /** The journal after a send that could be settled: as if nothing had happened when the driver
      refused, one more terminal row with the reported result otherwise. */
  ghost predicate Leaves(before: Journal, after: Journal, c: Commit, w: World) {
    if w.refused || w.refusedInside then after == before
    else
      && (Ending(w).Sent? || Ending(w).Uncertain?) && c.key in after.rows && Without(after, c.key) == before
      && after.rows[c.key] == Row(c.txn, c.prepared.hash, Terminal, Ending(w).result)
  }

  /** The reserved row deleted after a refusal, finalized with the reported result otherwise. */
  ghost predicate Resolved(before: Journals, after: Journals, c: Commit, w: World) {
    var a := c.prepared.account;
    && a in before && a in after
    && (if w.refused || w.refusedInside then after[a] == Delete(before[a], c.key, c.txn, c.prepared.hash)
        else
          && (Ending(w).Sent? || Ending(w).Uncertain?)
          && after[a] == Finalize(before[a], c.key, c.txn, c.prepared.hash, Ending(w).result))
  }

  /** Settling finds the reservation, so it fails only when the statement does. */
  lemma RowIsHeld(h: seq<Event>)
    requires Run(Init, h).pc.Reserved? || Run(Init, h).pc.Returned?
    ensures RowHeld(Run(Init, h).journals, Run(Init, h).pc.c)
  {
    RunKeeps(Init, h);
  }

  lemma MemoMissed(h: seq<Event>, refused: bool)
    requires Run(Init, h).pc.Reserved?
    ensures var s := Run(Init, h);
            EnterPc(s.drivers, s.pc.c, s.pc.inst, refused) ==
              if refused then Returned(s.pc.c, NoResult, true) else InDriver(s.pc.c, s.pc.inst)
  {
    RunKeeps(Init, h);
    MemoNeverHit(Run(Init, h));
  }

  /** What the end of a commit leaves of the transactions. */
  lemma FinishedAs(before: map<TxnId, Prepared>, c: Commit, o: Outcome, consume: bool, w: World)
    ensures var after, t := FinishIn(before, Settled(c, o, consume), w.later, w.removed, w.removedAgain), c.txn;
            && (consume && t in after ==> after[t].expiresAt == 0 && !w.removed)
            && (forall u :: u != t ==> (u in after <==> u in before) && (u in after ==> after[u] == before[u]))
            && (!consume && t in before && (w.later < before[t].expiresAt || !w.removedAgain) ==>
                  t in after && after[t] == before[t].(committing := false))
  {
  }

  /** Both unique keys are free, so the reservation fails only when the statement does. */
  lemma ReservedAs(js: Journals, c: Commit, i: InstanceId, io: Io)
    requires c.prepared.account in js && CanReserve(js[c.prepared.account], c.key, c.txn)
    ensures ReservePc(js, c, i, io) == if io.Done? then Reserved(c, i) else Settled(c, Conflict, false)
  {
  }

  lemma SettledAs(js: Journals, c: Commit, r: SendResult, failed: bool, io: Io)
    requires RowHeld(js, c)
    ensures var next, js', a := SettlePc(js, c, r, failed, io), SettleIn(js, c, r, failed, io), c.prepared.account;
            && next.Settled? && next.c == c
            && (!io.Done? ==> next == Settled(c, Uncertain(SendResult(0, false, true, DurablyReserved)), true))
            && (io.Done? ==> a in js')
            && (io.Done? && failed && !r.uncertain ==>
                  next == Settled(c, Rejected, false) && js'[a] == Delete(js[a], c.key, c.txn, c.prepared.hash))
            && (io.Done? && (!failed || r.uncertain) ==>
                  && next.consume && Conveys(next.outcome, Final(r))
                  && js'[a] == Finalize(js[a], c.key, c.txn, c.prepared.hash, Final(r)))
  {
  }

  /** With a driver bound: the reservation, and then one trip to the backend unless the driver refuses. */
  ghost predicate Carried(s: State, s': State, c: Commit, w: World, o: Outcome)
    requires c.prepared.account in s.journals
  {
    var a := c.prepared.account;
    if !w.reserve.Done? then o == Conflict && s'.calls == s.calls
    else
      && o == Ending(w)
      && s'.calls == (if w.refused || w.refusedInside then s.calls else s.calls + [Call(a, c.key, c.txn)])
      && (w.settle.Done? ==> a in s'.journals && Leaves(s.journals[a], s'.journals[a], c, w))
  }

  lemma CarriedAs(s: State, reserved: Journals, s': State, c: Commit, w: World, o: Outcome)
    requires c.prepared.account in s.journals && Coherent(s.journals[c.prepared.account])
    requires CanReserve(s.journals[c.prepared.account], c.key, c.txn) && w.reserve.Done?
    requires reserved == ReserveIn(s.journals, c, Done) && (w.settle.Done? ==> Resolved(reserved, s'.journals, c, w))
    requires o == Ending(w)
    requires s'.calls == if w.refused || w.refusedInside then s.calls else s.calls + [Call(c.prepared.account, c.key, c.txn)]
    ensures Carried(s, s', c, w, o)
  {
    if w.settle.Done? { RoundTrip(s.journals, reserved, s'.journals, c, w); }
  }

  /** A commit that found no row needs an active driver. */
  ghost predicate Attempted(s: State, s': State, c: Commit, w: World, o: Outcome)
    requires c.prepared.account in s.journals
  {
    if c.prepared.account !in s.active then o == Inactive && s'.calls == s.calls else Carried(s, s', c, w, o)
  }

  lemma JournalsAreCoherent(h: seq<Event>, a: AccountId)
    requires a in Run(Init, h).journals
    ensures Coherent(Run(Init, h).journals[a])
  {
    RunKeeps(Init, h);
  }

  /** Reserved and resolved: the journal as it was, or with one terminal row more. */
  lemma RoundTrip(before: Journals, reserved: Journals, after: Journals, c: Commit, w: World)
    requires c.prepared.account in before && Coherent(before[c.prepared.account])
    requires CanReserve(before[c.prepared.account], c.key, c.txn) && w.settle.Done?
    requires reserved == ReserveIn(before, c, Done) && Resolved(reserved, after, c, w)
    ensures Leaves(before[c.prepared.account], after[c.prepared.account], c, w)
  {
    var j := before[c.prepared.account];
    ReserveThenDelete(j, c.key, c.txn, c.prepared.hash, Provisional);
  }

  /** The commit `c` of a live transaction from state `s` to `s'`.  A row of the transaction answers it, then
      a row of the key: with the same request it answers, with another it conflicts. */
  ghost predicate Commits(s: State, s': State, c: Commit, w: World, o: Outcome) {
    var a := c.prepared.account;
    if w.fault then o == Unavailable && s'.calls == s.calls
    else if a !in s.journals then true // gone with its account, see Consult
    else if c.txn in s.journals[a].byTxn then
      && s'.calls == s.calls
      && (if s.journals[a].byTxn[c.txn] != c.key then o == Conflict
          else c.key in s.journals[a].rows && Conveys(o, s.journals[a].rows[c.key].result))
    else if w.keyFault then o == Conflict && s'.calls == s.calls
    else if c.key in s.journals[a].rows then
      && s'.calls == s.calls
      && (if s.journals[a].rows[c.key].hash != c.prepared.hash then o == Conflict
          else Conveys(o, s.journals[a].rows[c.key].result))
    else Steady(w.others.beforeVet) && Steady(w.others.beforeBind) ==> Attempted(s, s', c, w, o)
  }

  /** Whether the commit `c` used its transaction up: it did when the journal knew the transaction
      already, and when the answer is a success or an uncertain one. */
  predicate Consumes(s: State, c: Commit, w: World, o: Outcome) {
    || o.Sent? || o.Uncertain?
    || (!w.fault && c.prepared.account in s.journals && c.txn in s.journals[c.prepared.account].byTxn)
  }

  /** `issued`, `retired`, `calls` and `replies` are history; `pc` is where the one commit stands. */
  class Service {
    var journals: map<AccountId, Journal>
    var transactions: map<TxnId, Prepared>
    var drivers: map<InstanceId, Driver>
    var active: map<AccountId, InstanceId>
    var pc: Pc
    var issued: map<TxnId, AccountId>
    var retired: set<AccountId>
    var calls: seq<Call>
    var replies: seq<Reply>
    ghost var history: seq<Event>

    function Snapshot(): State
      reads this
    {
      State(journals, transactions, pc, drivers, active, issued, retired, calls, replies)
    }

    /** The object is in a reachable state of the protocol. */
    ghost predicate Valid()
      reads this
    {
      Snapshot() == Run(Init, history)
    }

    /** Event `e` has happened; with `Valid` on both sides this fixes the new state as
        Step of the old one.  No reply was given. */
    twostate predicate Took(e: Event)
      reads this
    {
      history == old(history) + [e] && replies == old(replies) && retired == old(retired)
    }

    constructor ()
      ensures Valid() && Snapshot() == Init && history == []
    {
      journals, transactions, drivers, active := map[], map[], map[], map[];
      pc, issued, retired, calls, replies, history := Idle, map[], {}, [], [], [];
    }

    /** Bookkeeping after the fields were changed as event `e` prescribes. */
    ghost method Record(e: Event, before: State)
      requires before == Run(Init, history) && Snapshot() == Step(before, e)
      modifies this`history
      ensures Valid() && history == old(history) + [e]
    {
      RunAppend(Init, history, e);
      history := history + [e];
    }

    /** `PrepareSend` once the content is staged. */
    method PrepareSend(t: TxnId, a: AccountId, hash: Digest, digest: Digest, now: Time, stuck: set<TxnId>)
      returns (ok: bool)
      requires Valid() && t !in issued
      modifies this
      ensures Valid() && ok == (a in old(active))
      ensures ok ==> Took(Prepare(t, a, hash, digest, now, stuck))
      ensures ok ==> t in transactions && transactions[t] == Prepared(a, hash, digest, now + 300_000_000_000, false)
      ensures ok ==> forall u :: u != t ==>
                && (u in transactions <==>
                      u in old(transactions) && (old(transactions)[u].committing || now < old(transactions)[u].expiresAt || u in stuck))
                && (u in transactions ==> transactions[u] == old(transactions)[u])
      ensures !ok ==> Snapshot() == old(Snapshot()) && history == old(history)
    {
      ok := a in active;
      if ok {
        ghost var before := Snapshot();
        PruneTransactions(now, stuck);
        transactions := transactions[t := Prepared(a, hash, digest, now + TransactionTtl, false)];
        issued := issued[t := a];
        Record(Prepare(t, a, hash, digest, now, stuck), before);
      }
    }

    /** `pruneTransactionsLocked`: drop what has expired and is not being committed. */
    method PruneTransactions(now: Time, stuck: set<TxnId>)
      modifies this`transactions
      ensures transactions == Pruned(old(transactions), now, stuck)
    {
      var todo := transactions.Keys;
      while todo != {}
        modifies this`transactions
        invariant todo <= transactions.Keys <= old(transactions).Keys
        invariant forall t :: t in transactions ==> transactions[t] == old(transactions)[t]
        invariant forall t :: t in old(transactions) && t !in todo ==>
                    (t in transactions <==> t in Pruned(old(transactions), now, stuck))
        decreases todo
      {
        var t :| t in todo;
        todo := todo - {t};
        if !transactions[t].committing && now >= transactions[t].expiresAt && t !in stuck {
          transactions := transactions - {t};
        }
      }
    }

    /** `findCommittedSend`: the scan over the listed accounts. */
    method FindCommittedSend(order: seq<AccountId>, unreadable: set<AccountId>, t: TxnId, k: Key)
      returns (found: Outcome)
      ensures found == FindCommitted(order, journals, unreadable, t, k)
    {
      var i := 0;
      while i < |order|
        invariant 0 <= i <= |order|
        invariant FindCommitted(order, journals, unreadable, t, k)
               == FindCommitted(order[i..], journals, unreadable, t, k)
      {
        assert order[i..][1..] == order[i+1..];
        if order[i] in unreadable || order[i] !in journals {
          return Unavailable;
        }
        var j := journals[order[i]];
        if t in j.byTxn {
          return if j.byTxn[t] != k then Conflict else Report(Stored(j, k));
        }
        i := i + 1;
      }
      return NotFound;
    }

    /** The lock section that admits a commit, or answers it from the journals. */
    method Admission(t: TxnId, k: Key, w: World) returns (c: Commit, live: bool, reply: Outcome)
      requires Valid() && pc.Idle? && (set a | a in w.order) == journals.Keys
      modifies this`transactions, this`pc, this`replies, this`history
      ensures Valid() && history == old(history) + [Admit(t, k, w.now, w.removed, w.order, w.unreadable)]
      ensures live <==> t in old(transactions) && w.now < old(transactions)[t].expiresAt
      ensures live ==> pc == Admitted(c) && c == Commit(t, k, old(transactions)[t].(committing := true)) && replies == old(replies)
      ensures live ==> transactions == old(transactions)[t := c.prepared]
      ensures !live ==> pc.Idle? && replies == old(replies) + [Reply(t, k, reply)]
      ensures !live ==> transactions == if w.removed then old(transactions) - {t} else old(transactions)
      ensures !live ==> (reply == NotFound <==> forall a :: a in w.order ==> a !in w.unreadable && t !in journals[a].byTxn)
    {
      ghost var before := Snapshot();
      reply := NotFound;
      live := t in transactions && w.now < transactions[t].expiresAt;
      if live {
        transactions := transactions[t := transactions[t].(committing := true)];
        c := Commit(t, k, transactions[t]);
        pc := Admitted(c);
      } else {
        c := Commit(t, k, Prepared(0, 0, 0, 0, false));
        if w.removed {
          transactions := transactions - {t};
        }
        reply := FindCommittedSend(w.order, w.unreadable, t, k);
        replies := replies + [Reply(t, k, reply)];
      }
      Record(Admit(t, k, w.now, w.removed, w.order, w.unreadable), before);
      NotFoundExactly(w.order, journals, w.unreadable, t, k);
      assert forall a :: a in w.order ==> a in (set b | b in w.order);
    }

    /** Account, index, and both journal lookups, in this order. */
    method Lookup(c: Commit, w: World) returns (next: Pc)
      ensures next == VetPc(journals, c, w.fault, w.keyFault)
    {
      var a := c.prepared.account;
      if a !in journals || w.fault {
        return Settled(c, Unavailable, false);
      }
      var j := journals[a];
      if c.txn in j.byTxn {
        return Settled(c, if j.byTxn[c.txn] != c.key then Conflict else Report(Stored(j, c.key)), true);
      }
      if w.keyFault {
        return Settled(c, Conflict, false);
      }
      if c.key !in j.rows {
        return Vetted(c);
      }
      if j.rows[c.key].hash != c.prepared.hash {
        return Settled(c, Conflict, false);
      }
      return Settled(c, Report(Stored(j, c.key)), true);
    }

    /** The journal is consulted: the commit goes on, or its answer is known. */
    method Consult(c: Commit, w: World) returns (next: Pc)
      requires Valid() && pc == Admitted(c)
      modifies this`pc, this`history
      ensures Valid() && Took(Vet(w.fault, w.keyFault))
      ensures next == pc && next == VetPc(journals, c, w.fault, w.keyFault)
    {
      ghost var before := Snapshot();
      next := Lookup(c, w);
      pc := next;
      Record(Vet(w.fault, w.keyFault), before);
    }

    method BindDriver(c: Commit) returns (next: Pc)
      requires Valid() && pc == Vetted(c)
      modifies this`pc, this`history
      ensures Valid() && Took(Bind) && next == pc
      ensures next == if c.prepared.account in active then Bound(c, active[c.prepared.account]) else Settled(c, Inactive, false)
    {
      ghost var before := Snapshot();
      var a := c.prepared.account;
      if a in active {
        next := Bound(c, active[a]);
      } else {
        next := Settled(c, Inactive, false);
      }
      pc := next;
      Record(Bind, before);
    }

    /** The row of this commit's reservation. */
    predicate Matched(c: Commit)
      requires c.prepared.account in journals
      reads this
    {
      var rows := journals[c.prepared.account].rows;
      c.key in rows && rows[c.key].txn == c.txn && rows[c.key].hash == c.prepared.hash && rows[c.key].state == InFlight
    }

    /** INSERT of the reservation; both unique keys must be free. */
    method InsertReservation(c: Commit, io: Io) returns (done: bool)
      modifies this`journals
      ensures journals == ReserveIn(old(journals), c, io)
      ensures done <==> Effective(old(journals), c, io) && io.Done? && CanReserve(old(journals)[c.prepared.account], c.key, c.txn)
    {
      var a := c.prepared.account;
      if a !in journals || io.FailedBefore? {
        return false;
      }
      var j := journals[a];
      done := c.key !in j.rows && c.txn !in j.byTxn;
      if done {
        j := Journal(j.rows[c.key := Row(c.txn, c.prepared.hash, InFlight, Provisional)], j.byTxn[c.txn := c.key]);
      }
      journals := journals[a := j];
      done := done && io.Done?;
    }

    /** DELETE of the reservation, counting the rows it hit. */
    method DeleteReservation(c: Commit, io: Io) returns (done: bool)
      modifies this`journals
      ensures forall r :: CleanRefusal(r, true) ==> journals == SettleIn(old(journals), c, r, true, io)
      ensures done <==> Effective(old(journals), c, io) && io.Done? && Holds(old(journals)[c.prepared.account], c.key, c.txn, c.prepared.hash)
    {
      var a := c.prepared.account;
      if a !in journals || io.FailedBefore? {
        return false;
      }
      var j := journals[a];
      done := Matched(c);
      if done {
        j := Journal(j.rows - {c.key}, j.byTxn - {c.txn});
      }
      journals := journals[a := j];
      done := done && io.Done?;
    }

    /** UPDATE of the reservation to its terminal result. */
    method FinalizeReservation(c: Commit, stored: SendResult, io: Io) returns (done: bool)
      modifies this`journals
      ensures forall r, failed :: !CleanRefusal(r, failed) && Final(r) == stored ==> journals == SettleIn(old(journals), c, r, failed, io)
      ensures done <==> Effective(old(journals), c, io) && io.Done? && Holds(old(journals)[c.prepared.account], c.key, c.txn, c.prepared.hash)
    {
      var a := c.prepared.account;
      if a !in journals || io.FailedBefore? {
        return false;
      }
      var j := journals[a];
      done := Matched(c);
      if done {
        j := j.(rows := j.rows[c.key := Row(c.txn, c.prepared.hash, Terminal, stored)]);
      }
      journals := journals[a := j];
      done := done && io.Done?;
    }

    method TryReservation(c: Commit, i: InstanceId, io: Io) returns (next: Pc)
      modifies this`journals
      ensures journals == ReserveIn(old(journals), c, io) && next == ReservePc(old(journals), c, i, io)
    {
      var done := InsertReservation(c, io);
      next := if done then Reserved(c, i) else Settled(c, Conflict, false);
    }

    method ReserveSend(c: Commit, i: InstanceId, w: World) returns (next: Pc)
      requires Valid() && pc == Bound(c, i)
      modifies this`journals, this`pc, this`history
      ensures Valid() && Took(ReserveRow(w.reserve)) && next == pc
      ensures journals == ReserveIn(old(journals), c, w.reserve) && next == ReservePc(old(journals), c, i, w.reserve)
    {
      ghost var before := Snapshot();
      next := TryReservation(c, i, w.reserve);
      pc := next;
      Record(ReserveRow(w.reserve), before);
    }

    /** The door checks of the WeChat driver and its memo. */
    method ConsultMemo(c: Commit, i: InstanceId, refused: bool) returns (next: Pc)
      ensures next == EnterPc(drivers, c, i, refused)
    {
      if refused || i !in drivers {
        return Returned(c, NoResult, true);
      }
      if c.key !in drivers[i].memos {
        return InDriver(c, i);
      }
      var m := drivers[i].memos[c.key];
      if m.digest != c.prepared.digest {
        return Returned(c, NoResult, true);
      }
      return Returned(c, m.result, m.failed);
    }

    /** `Driver.Send` up to the memo, which never answers: a reserved key was not sent before. */
    method DriverEnter(c: Commit, i: InstanceId, w: World) returns (next: Pc)
      requires Valid() && pc == Reserved(c, i)
      modifies this`pc, this`history
      ensures Valid() && Took(EnterDriver(w.refused))
      ensures next == pc && next == if w.refused then Returned(c, NoResult, true) else InDriver(c, i)
    {
      ghost var before := Snapshot();
      next := ConsultMemo(c, i, w.refused);
      MemoMissed(history, w.refused);
      pc := next;
      Record(EnterDriver(w.refused), before);
    }

    method DriverRefuse(c: Commit, i: InstanceId) returns (next: Pc)
      requires Valid() && pc == InDriver(c, i)
      modifies this`pc, this`history
      ensures Valid() && Took(DriverRefuses) && next == pc && next == Returned(c, NoResult, true)
    {
      ghost var before := Snapshot();
      next := Returned(c, NoResult, true);
      pc := next;
      Record(DriverRefuses, before);
    }

    /** backend.Send is invoked here and nowhere else. */
    method CallBackend(c: Commit, i: InstanceId)
      requires Valid() && pc == InDriver(c, i)
      modifies this`pc, this`calls, this`history
      ensures Valid() && Took(Dispatch) && pc == Dispatched(c, i)
      ensures calls == old(calls) + [Call(c.prepared.account, c.key, c.txn)]
    {
      ghost var before := Snapshot();
      pc := Dispatched(c, i);
      calls := calls + [Call(c.prepared.account, c.key, c.txn)];
      Record(Dispatch, before);
    }

    method RememberResult(c: Commit, i: InstanceId, end: BackendEnd) returns (next: Pc)
      requires Valid() && pc == Dispatched(c, i)
      modifies this`drivers, this`pc, this`history
      ensures Valid() && Took(BackendReturns(end)) && next == pc
      ensures drivers == Remember(old(drivers), i, c, Memo(c.prepared.digest, EndResult(end), !end.Confirmed?))
      ensures next == Returned(c, EndResult(end), !end.Confirmed?)
    {
      ghost var before := Snapshot();
      var m := Memo(c.prepared.digest, EndResult(end), !end.Confirmed?);
      drivers := Remember(drivers, i, c, m);
      next := Returned(c, m.result, m.failed);
      pc := next;
      Record(BackendReturns(end), before);
    }

    /** Un-reserve after a clean refusal, finalize otherwise; a statement that fails leaves the
        provisional answer. */
    method ResolveReservation(c: Commit, r: SendResult, failed: bool, io: Io) returns (next: Pc)
      modifies this`journals
      ensures journals == SettleIn(old(journals), c, r, failed, io) && next == SettlePc(old(journals), c, r, failed, io)
    {
      if failed && !r.uncertain {
        var done := DeleteReservation(c, io);
        next := if done then Settled(c, Rejected, false) else Settled(c, Report(Provisional), true);
      } else {
        var stored := r;
        if !r.verified {
          stored := r.(uncertain := true, detail := if r.detail.NoDetail? then ClientUnverified else r.detail);
        }
        var done := FinalizeReservation(c, stored, io);
        next := if done then Settled(c, Report(stored), true) else Settled(c, Report(Provisional), true);
      }
    }

    method SettleRow(c: Commit, r: SendResult, failed: bool, io: Io) returns (next: Pc)
      requires Valid() && pc == Returned(c, r, failed)
      modifies this`journals, this`pc, this`history
      ensures Valid() && Took(Settle(io)) && next == pc
      ensures journals == SettleIn(old(journals), c, r, failed, io) && next == SettlePc(old(journals), c, r, failed, io)
    {
      ghost var before := Snapshot();
      next := ResolveReservation(c, r, failed, io);
      pc := next;
      Record(Settle(io), before);
    }

    method SettleSend(c: Commit, r: SendResult, failed: bool, w: World) returns (next: Pc)
      requires Valid() && pc == Returned(c, r, failed)
      modifies this`journals, this`pc, this`history
      ensures Valid() && Took(Settle(w.settle)) && next == pc && next.Settled? && next.c == c
      ensures !w.settle.Done? ==> next == Settled(c, Uncertain(SendResult(0, false, true, DurablyReserved)), true)
      ensures w.settle.Done? ==> c.prepared.account in old(journals) && c.prepared.account in journals
      ensures w.settle.Done? && failed && !r.uncertain ==>
                && next == Settled(c, Rejected, false)
                && journals[c.prepared.account] == Delete(old(journals)[c.prepared.account], c.key, c.txn, c.prepared.hash)
      ensures w.settle.Done? && (!failed || r.uncertain) ==>
                && next.consume && Conveys(next.outcome, Final(r))
                && journals[c.prepared.account] == Finalize(old(journals)[c.prepared.account], c.key, c.txn, c.prepared.hash, Final(r))
    {
      RowIsHeld(history);
      SettledAs(journals, c, r, failed, w.settle);
      next := SettleRow(c, r, failed, w.settle);
    }

    /** `cleanupTransaction` and the deferred `releaseTransactionCommit`. */
    method ReleaseCommit(c: Commit, o: Outcome, consume: bool, w: World)
      requires Valid() && pc == Settled(c, o, consume)
      modifies this`transactions, this`pc, this`replies, this`history
      ensures Valid() && history == old(history) + [Finish(w.later, w.removed, w.removedAgain)] && pc.Idle?
      ensures replies == old(replies) + [Reply(c.txn, c.key, o)]
      ensures consume && c.txn in transactions ==> transactions[c.txn].expiresAt == 0 && !w.removed
      ensures forall t :: t != c.txn ==> (t in transactions <==> t in old(transactions)) && (t in transactions ==> transactions[t] == old(transactions)[t])
      ensures !consume && c.txn in old(transactions) && (w.later < old(transactions)[c.txn].expiresAt || !w.removedAgain) ==>
                c.txn in transactions && transactions[c.txn] == old(transactions)[c.txn].(committing := false)
    {
      FinishedAs(transactions, c, o, consume, w);
      FinishCommit(c, o, consume, w);
    }

    method FinishCommit(c: Commit, o: Outcome, consume: bool, w: World)
      requires Valid() && pc == Settled(c, o, consume)
      modifies this`transactions, this`pc, this`replies, this`history
      ensures Valid() && history == old(history) + [Finish(w.later, w.removed, w.removedAgain)] && pc.Idle?
      ensures replies == old(replies) + [Reply(c.txn, c.key, o)]
      ensures transactions == FinishIn(old(transactions), old(pc), w.later, w.removed, w.removedAgain)
    {
      ghost var before := Snapshot();
      var cleaned := if consume then CleanedUp(transactions, c.txn, w.removed) else transactions;
      transactions := Released(cleaned, c.txn, w.later, w.removedAgain);
      pc := Idle;
      replies := replies + [Reply(c.txn, c.key, o)];
      Record(Finish(w.later, w.removed, w.removedAgain), before);
    }

    /** The rest of the daemon goes on. */
    method Others(es: seq<Event>)
      requires Valid()
      modifies this
      ensures Valid() && SameCommit(old(Snapshot()), Snapshot()) && old(history) <= history
      ensures forall i :: |old(history)| <= i < |history| ==> Opens(history[i])
      ensures Steady(es) ==> active == old(active)
    {
      var s, h := OthersRun(Snapshot(), history, es);
      Adopt(s);
      history := h;
    }

    method Adopt(s: State)
      modifies this
      ensures Snapshot() == s && history == old(history)
    {
      journals, transactions, drivers, active := s.journals, s.transactions, s.drivers, s.active;
      pc, issued, retired, calls, replies := s.pc, s.issued, s.retired, s.calls, s.replies;
    }

    /** What the sub-steps of one commit leave behind: a longer run, the same replies so far,
        and at most one more invocation of the backend. */
    twostate predicate Advanced(c: Commit, w: World)
      reads this
    {
      && old(history) <= history && replies == old(replies)
      && (!w.fault ==> forall i :: |old(history)| <= i < |history| ==> Opens(history[i]))
      && (calls == old(calls) || calls == old(calls) + [Call(c.prepared.account, c.key, c.txn)])
      && retired == old(retired) && SameMarked(old(transactions), transactions)
    }

    /** A transaction that was used up can never be committed again; any other is as committable as before
        until it expires. */
    predicate Spent(p: Prepared, consumed: bool, t: TxnId, w: World)
      reads this
    {
      && (consumed && t in transactions ==> transactions[t].expiresAt == 0 && !w.removed)
      && (!consumed && (w.later < p.expiresAt || !w.removedAgain) ==> t in transactions && transactions[t] == p.(committing := false))
    }

    /** `Driver.Send` after the door: refused before the backend, or once through it. */
    method SendOnce(c: Commit, i: InstanceId, w: World) returns (next: Pc)
      requires Valid() && pc == InDriver(c, i)
      modifies this
      ensures Valid() && next == pc && Advanced(c, w) && SameJournals(old(journals), journals)
      ensures w.refusedInside ==> next == Returned(c, NoResult, true) && calls == old(calls)
      ensures !w.refusedInside ==>
                next == Returned(c, EndResult(w.end), !w.end.Confirmed?) && calls == old(calls) + [Call(c.prepared.account, c.key, c.txn)]
    {
      Others(w.others.beforeBackend);
      if w.refusedInside {
        next := DriverRefuse(c, i);
      } else {
        CallBackend(c, i);
        Others(w.others.atBackend);
        next := RememberResult(c, i, w.end);
      }
    }

    /** From the reservation to the driver's answer. */
    method DriverSend(c: Commit, i: InstanceId, w: World) returns (next: Pc)
      requires Valid() && pc == Reserved(c, i)
      modifies this
      ensures Valid() && next == pc && Advanced(c, w) && SameJournals(old(journals), journals)
      ensures next == if w.refused || w.refusedInside then Returned(c, NoResult, true)
                      else Returned(c, EndResult(w.end), !w.end.Confirmed?)
      ensures calls == if w.refused || w.refusedInside then old(calls) else old(calls) + [Call(c.prepared.account, c.key, c.txn)]
    {
      Others(w.others.beforeDriver);
      next := DriverEnter(c, i, w);
      if next.InDriver? {
        next := SendOnce(c, i, w);
      }
    }

    /** From the reservation to the settled row. */
    method Deliver(c: Commit, i: InstanceId, w: World) returns (next: Pc)
      requires Valid() && pc == Reserved(c, i)
      modifies this
      ensures Valid() && next == pc && Advanced(c, w)
      ensures next == Settled(c, Ending(w), !Ending(w).Rejected?)
      ensures calls == if w.refused || w.refusedInside then old(calls) else old(calls) + [Call(c.prepared.account, c.key, c.txn)]
      ensures w.settle.Done? ==> Resolved(old(journals), journals, c, w)
    {
      RowIsHeld(history);
      next := DriverSend(c, i, w);
      Others(w.others.beforeSettle);
      next := SettleSend(c, next.result, next.failed, w);
    }

    /** The reservation and what follows it. */
    method ReserveAndDeliver(c: Commit, i: InstanceId, w: World) returns (next: Pc)
      requires Valid() && pc == Bound(c, i)
      modifies this
      ensures Valid() && next == pc && next.Settled? && next.c == c && Advanced(c, w)
      ensures next.consume <==> next.outcome.Sent? || next.outcome.Uncertain?
      ensures c.prepared.account in old(journals) && CanReserve(old(journals)[c.prepared.account], c.key, c.txn) ==>
                Carried(old(Snapshot()), Snapshot(), c, w, next.outcome)
    {
      ghost var free := c.prepared.account in journals && CanReserve(journals[c.prepared.account], c.key, c.txn);
      if free {
        JournalsAreCoherent(history, c.prepared.account);
        ReservedAs(journals, c, i, w.reserve);
      }
      next := ReserveSend(c, i, w);
      ghost var reserved := journals;
      if next.Reserved? {
        next := Deliver(c, i, w);
        if free { CarriedAs(old(Snapshot()), reserved, Snapshot(), c, w, next.outcome); }
      }
    }

    /** From the bound driver to the settled outcome. */
    method Carry(c: Commit, i: InstanceId, w: World) returns (next: Pc)
      requires Valid() && pc == Bound(c, i)
      modifies this
      ensures Valid() && next == pc && next.Settled? && next.c == c && Advanced(c, w)
      ensures next.consume <==> next.outcome.Sent? || next.outcome.Uncertain?
      ensures c.prepared.account in old(journals) && CanReserve(old(journals)[c.prepared.account], c.key, c.txn) ==>
                Carried(old(Snapshot()), Snapshot(), c, w, next.outcome)
    {
      Others(w.others.beforeReserve);
      next := ReserveAndDeliver(c, i, w);
    }

    /** From the consulted journal to the settled outcome. */
    method Undertake(c: Commit, w: World) returns (next: Pc)
      requires Valid() && pc == Vetted(c)
      modifies this
      ensures Valid() && next == pc && next.Settled? && next.c == c && Advanced(c, w)
      ensures next.consume <==> next.outcome.Sent? || next.outcome.Uncertain?
      ensures Steady(w.others.beforeBind) && c.prepared.account in old(journals) &&
              CanReserve(old(journals)[c.prepared.account], c.key, c.txn) ==>
                Attempted(old(Snapshot()), Snapshot(), c, w, next.outcome)
    {
      Others(w.others.beforeBind);
      next := BindDriver(c);
      if next.Bound? {
        next := Carry(c, next.inst, w);
      }
    }

    /** From admission to the settled outcome. */
    method Process(c: Commit, w: World) returns (next: Pc)
      requires Valid() && pc == Admitted(c)
      modifies this
      ensures Valid() && next == pc && next.Settled? && next.c == c && Advanced(c, w)
      ensures Commits(old(Snapshot()), Snapshot(), c, w, next.outcome)
      ensures c.prepared.account in old(journals) ==> (next.consume <==> Consumes(old(Snapshot()), c, w, next.outcome))
    {
      ghost var known := c.prepared.account in journals;
      if known { JournalsAreCoherent(history, c.prepared.account); }
      Others(w.others.beforeVet);
      next := Consult(c, w);
      if known || w.fault { VettedAs(old(Snapshot()), Snapshot(), c, w); }
      if next.Vetted? {
        next := Undertake(c, w);
      }
    }

    /** From admission to the reply. */
    method Serve(c: Commit, w: World) returns (reply: Outcome)
      requires Valid() && pc == Admitted(c) && c.txn in transactions && transactions[c.txn] == c.prepared && c.prepared.committing
      modifies this
      ensures Valid() && pc.Idle? && old(history) <= history && retired == old(retired)
      ensures !w.fault ==> forall i :: |old(history)| <= i < |history| ==> Opens(history[i])
      ensures replies == old(replies) + [Reply(c.txn, c.key, reply)]
      ensures calls == old(calls) || calls == old(calls) + [Call(c.prepared.account, c.key, c.txn)]
      ensures Commits(old(Snapshot()), Snapshot(), c, w, reply)
      ensures c.prepared.account in old(journals) ==> Spent(c.prepared, Consumes(old(Snapshot()), c, w, reply), c.txn, w)
    {
      var next := Process(c, w);
      reply := next.outcome;
      ghost var processed := Snapshot();
      Others(w.others.beforeRelease);
      ReleaseCommit(c, next.outcome, next.consume, w);
      CommitsAlike(old(Snapshot()), old(Snapshot()), processed, Snapshot(), c, w, reply);
    }

    /** `CommitSend`, with the rest of the daemon going on between all its sections.  A transaction
        that already has a row is answered from it without touching the backend: its own key gets the
        stored result, any other key a conflict. */
    method CommitSend(t: TxnId, k: Key, confirmed: bool, boundedKey: bool, w: World) returns (reply: Outcome)
      requires Valid() && pc.Idle? && (set a | a in w.order) == journals.Keys
      modifies this
      ensures Valid() && pc.Idle?
      ensures !confirmed || !boundedKey ==> reply == BadRequest && Snapshot() == old(Snapshot())
      ensures confirmed && boundedKey ==> replies == old(replies) + [Reply(t, k, reply)]
      ensures |calls| <= |old(calls)| + 1 && old(calls) <= calls
      ensures AtMostOnce(calls)
      ensures forall a, k' | HasRow(old(Snapshot()), a, k') && RowOf(old(Snapshot()), a, k').txn == t ::
                && (confirmed && boundedKey ==>
                      Faithful(reply, w.unreadable == {} && !w.fault, k', RowOf(old(Snapshot()), a, k'), k))
                && calls == old(calls)
      ensures confirmed && boundedKey && !(t in old(transactions) && w.now < old(transactions)[t].expiresAt) ==>
                && calls == old(calls)
                && (reply == NotFound <==> forall a :: a in w.order ==> a !in w.unreadable && t !in old(journals)[a].byTxn)
      ensures confirmed && boundedKey && t in old(transactions) && w.now < old(transactions)[t].expiresAt ==>
                var c := Commit(t, k, old(transactions)[t].(committing := true));
                && Commits(old(Snapshot()), Snapshot(), c, w, reply)
                && (c.prepared.account in old(journals) ==> Spent(c.prepared, Consumes(old(Snapshot()), c, w, reply), t, w))
    {
      SentAtMostOnce(history);
      if !confirmed || !boundedKey {
        return BadRequest;
      }
      reply := CommitConfirmed(t, k, w);
    }

    /** A confirmed commit. */
    method CommitConfirmed(t: TxnId, k: Key, w: World) returns (reply: Outcome)
      requires Valid() && pc.Idle? && (set a | a in w.order) == journals.Keys
      modifies this
      ensures Valid() && pc.Idle? && replies == old(replies) + [Reply(t, k, reply)]
      ensures |calls| <= |old(calls)| + 1 && old(calls) <= calls && AtMostOnce(calls)
      ensures forall a, k' | HasRow(old(Snapshot()), a, k') && RowOf(old(Snapshot()), a, k').txn == t ::
                && Faithful(reply, w.unreadable == {} && !w.fault, k', RowOf(old(Snapshot()), a, k'), k)
                && calls == old(calls)
      ensures !(t in old(transactions) && w.now < old(transactions)[t].expiresAt) ==>
                && calls == old(calls)
                && (reply == NotFound <==> forall a :: a in w.order ==> a !in w.unreadable && t !in old(journals)[a].byTxn)
      ensures t in old(transactions) && w.now < old(transactions)[t].expiresAt ==>
                var c := Commit(t, k, old(transactions)[t].(committing := true));
                && Commits(old(Snapshot()), Snapshot(), c, w, reply)
                && (c.prepared.account in old(journals) ==> Spent(c.prepared, Consumes(old(Snapshot()), c, w, reply), t, w))
    {
      var c, live, answer := Admission(t, k, w);
      reply := answer;
      if live {
        ghost var admitted := Snapshot();
        reply := Serve(c, w);
        CommitsAlike(admitted, old(Snapshot()), Snapshot(), Snapshot(), c, w, reply);
      }
      SentAtMostOnce(history);
      RowsAnswer(old(Snapshot()), old(history), Snapshot(), history, t, k, reply, w.unreadable == {} && !w.fault);
    }
  }

  /** The verdict depends on the journals, the active drivers and the calls alone. */
  lemma CommitsAlike(s: State, r: State, s': State, r': State, c: Commit, w: World, o: Outcome)
    requires r.journals == s.journals && r.active == s.active && r.calls == s.calls
    requires SameJournals(s'.journals, r'.journals) && r'.calls == s'.calls
    requires Commits(s, s', c, w, o)
    ensures Commits(r, r', c, w, o)
    ensures Consumes(r, c, w, o) == Consumes(s, c, w, o)
  {
  }

  /** Consulting the journal settles the commit rightly, or finds both unique keys free. */
  lemma VettedAs(s: State, s': State, c: Commit, w: World)
    requires c.prepared.account in s.journals ==> Coherent(s.journals[c.prepared.account])
    requires c.prepared.account in s.journals || w.fault
    requires SameJournals(s.journals, s'.journals) && s'.calls == s.calls
    ensures var next := VetPc(s'.journals, c, w.fault, w.keyFault);
            && (next.Settled? ==>
                  && Commits(s, s', c, w, next.outcome)
                  && (c.prepared.account in s.journals ==> (next.consume <==> Consumes(s, c, w, next.outcome))))
            && (next.Vetted? ==> !w.fault && !w.keyFault && CanReserve(s.journals[c.prepared.account], c.key, c.txn))
  {
  }

  /** One commit from idle to idle leaves every row of its transaction answering for it. */
  lemma RowsAnswer(s: State, before: seq<Event>, s': State, after: seq<Event>, t: TxnId, k: Key, reply: Outcome, open: bool)
    requires before <= after && s == Run(Init, before) && s' == Run(Init, after) && s.pc.Idle? && s'.retired == s.retired
    requires open ==> forall i :: |before| <= i < |after| ==> Opens(after[i])
    requires s'.replies == s.replies + [Reply(t, k, reply)]
    requires s'.calls == s.calls || (|s'.calls| == |s.calls| + 1 && s'.calls[|s.calls|].txn == t)
    ensures forall a, k' | HasRow(s, a, k') && RowOf(s, a, k').txn == t ::
              Faithful(reply, open, k', RowOf(s, a, k'), k) && s'.calls == s.calls
  {
    forall a, k' | HasRow(s, a, k') && RowOf(s, a, k').txn == t
      ensures Faithful(reply, open, k', RowOf(s, a, k'), k) && s'.calls == s.calls
    {
      Answered(s, before, after, open, a, k');
      assert s'.replies[|s.replies|] == Reply(t, k, reply);
    }
  }

  /** Between two idle moments, the account still registered, a row that existed at the first is still
      there, answers every reply about its transaction, and is not dispatched. */
  lemma Answered(s: State, before: seq<Event>, after: seq<Event>, open: bool, a: AccountId, k: Key)
    requires before <= after && s == Run(Init, before) && s.pc.Idle? && HasRow(s, a, k)
    requires Run(Init, after).retired == s.retired
    requires open ==> forall i :: |before| <= i < |after| ==> Opens(after[i])
    ensures FaithfulSince(Run(Init, after), open, |s.replies|, k, RowOf(s, a, k))
    ensures QuietSince(Run(Init, after), |s.calls|, a, k, RowOf(s, a, k))
  {
    var es := after[|before|..];
    assert after == before + es;
    RunConcat(Init, before, es);
    RunKeeps(Init, before);
    NotRetired(s, a);
    AnsweredSince(s, es, open, a, k);
  }

  lemma NotRetired(s: State, a: AccountId)
    requires Inv(s) && a in s.journals
    ensures a !in s.retired
  {
  }
}
