/** The five minutes of a prepared transaction: only a commit admitted within them reaches the
    backend, and within them the transaction stays committable. */
module SendExpiry {
  import opened SendJournal
  import opened SendProtocol
  import opened SendSafety

  /** Event `i` of the run prepared `p` under `t`, which expires five minutes later at the latest. */
  ghost predicate PreparedBy(es: seq<Event>, i: int, t: TxnId, p: Prepared) {
    && 0 <= i < |es| && es[i].Prepare? && es[i].txn == t && es[i].account == p.account
    && p.expiresAt <= es[i].now + 300_000_000_000
  }

  ghost predicate Recollected(es: seq<Event>, t: TxnId, p: Prepared) {
    exists i :: PreparedBy(es, i, t, p)
  }

  /** The run prepared `t` for `a`, and then, within five minutes, was asked to commit it under `k`. */
  ghost predicate Warranted(es: seq<Event>, a: AccountId, k: Key, t: TxnId) {
    exists i, j :: Warrant(es, i, j, a, k, t)
  }

  ghost predicate Warrant(es: seq<Event>, i: int, j: int, a: AccountId, k: Key, t: TxnId) {
    && 0 <= i < j < |es| && es[i].Prepare? && es[i].txn == t && es[i].account == a
    && es[j].Admit? && es[j].txn == t && es[j].key == k && es[j].now < es[i].now + 300_000_000_000
  }

  ghost predicate AllRecollected(es: seq<Event>, transactions: map<TxnId, Prepared>) {
    forall t :: t in transactions ==> Recollected(es, t, transactions[t])
  }

  ghost predicate PcWarranted(es: seq<Event>, pc: Pc) {
    !pc.Idle? ==> Warranted(es, pc.c.prepared.account, pc.c.key, pc.c.txn)
  }

  ghost predicate CallsWarranted(es: seq<Event>, calls: seq<Call>) {
    forall i :: 0 <= i < |calls| ==> Warranted(es, calls[i].account, calls[i].key, calls[i].txn)
  }

  ghost predicate InTime(es: seq<Event>, s: State) {
    AllRecollected(es, s.transactions) && PcWarranted(es, s.pc) && CallsWarranted(es, s.calls)
  }

  lemma WarrantStays(es: seq<Event>, e: Event, a: AccountId, k: Key, t: TxnId)
    requires Warranted(es, a, k, t)
    ensures Warranted(es + [e], a, k, t)
  {
    var i, j :| Warrant(es, i, j, a, k, t);
    assert Warrant(es + [e], i, j, a, k, t);
  }

  /** A longer run recollects what a shorter one did, and any earlier expiry. */
  lemma RecollectionStays(es: seq<Event>, e: Event, t: TxnId, p: Prepared, p': Prepared)
    requires Recollected(es, t, p) && p'.account == p.account && p'.expiresAt <= p.expiresAt
    ensures Recollected(es + [e], t, p')
  {
    var i :| PreparedBy(es, i, t, p);
    assert PreparedBy(es + [e], i, t, p');
  }

  /** No entry is new, and none was given more time. */
  ghost predicate NoExtension(before: map<TxnId, Prepared>, after: map<TxnId, Prepared>) {
    forall t :: t in after ==>
      t in before && after[t].account == before[t].account && after[t].expiresAt <= before[t].expiresAt
  }

  /** The events that touch the transactions. */
  predicate Touches(e: Event) {
    e.Prepare? || e.Reap? || e.Admit? || e.Finish? || e.Crash?
  }

  lemma OthersTouchNone(s: State, e: Event)
    requires !Touches(e)
    ensures Step(s, e).transactions == s.transactions
  {
  }

  lemma FinishExtendsNone(s: State, e: Event)
    requires e.Finish?
    ensures NoExtension(s.transactions, Step(s, e).transactions)
  {
  }

  lemma NothingExtended(s: State, e: Event)
    requires !e.Prepare?
    ensures NoExtension(s.transactions, Step(s, e).transactions)
  {
    if e.Finish? {
      FinishExtendsNone(s, e);
    } else if !Touches(e) {
      OthersTouchNone(s, e);
    }
  }

  lemma TransactionsInTime(es: seq<Event>, s: State, e: Event)
    requires AllRecollected(es, s.transactions)
    ensures AllRecollected(es + [e], Step(s, e).transactions)
  {
    var after := Step(s, e).transactions;
    if !e.Prepare? { NothingExtended(s, e); }
    forall t | t in after ensures Recollected(es + [e], t, after[t]) {
      if e.Prepare? && Enabled(s, e) && t == e.txn {
        assert PreparedBy(es + [e], |es|, t, after[t]);
      } else {
        RecollectionStays(es, e, t, s.transactions[t], after[t]);
      }
    }
  }

  /** The commit under way stays the same until it is over. */
  lemma SameCommitGoesOn(s: State, e: Event)
    requires !e.Admit?
    ensures Step(s, e).pc.Idle? || (!s.pc.Idle? && Step(s, e).pc.c == s.pc.c)
  {
  }

  lemma AdmittedInTime(es: seq<Event>, s: State, e: Event)
    requires InTime(es, s) && e.Admit?
    ensures PcWarranted(es + [e], Step(s, e).pc)
  {
    if Enabled(s, e) && Live(s.transactions, e.txn, e.now) {
      var i :| PreparedBy(es, i, e.txn, s.transactions[e.txn]);
      assert Warrant(es + [e], i, |es|, s.transactions[e.txn].account, e.key, e.txn);
    } else if !s.pc.Idle? {
      WarrantStays(es, e, s.pc.c.prepared.account, s.pc.c.key, s.pc.c.txn);
    }
  }

  lemma PcInTime(es: seq<Event>, s: State, e: Event)
    requires InTime(es, s)
    ensures PcWarranted(es + [e], Step(s, e).pc)
  {
    if e.Admit? {
      AdmittedInTime(es, s, e);
    } else {
      SameCommitGoesOn(s, e);
      if !s.pc.Idle? { WarrantStays(es, e, s.pc.c.prepared.account, s.pc.c.key, s.pc.c.txn); }
    }
  }

  lemma CallsGrow(s: State, e: Event)
    ensures Step(s, e).calls == s.calls ||
            (!s.pc.Idle? && Step(s, e).calls == s.calls + [Call(s.pc.c.prepared.account, s.pc.c.key, s.pc.c.txn)])
  {
    match e
    case Dispatch =>
    case Admit(_, _, _, _, _, _) =>
    case BackendReturns(_) =>
    case _ =>
  }

  lemma CallsInTime(es: seq<Event>, s: State, e: Event)
    requires InTime(es, s)
    ensures CallsWarranted(es + [e], Step(s, e).calls)
  {
    CallsGrow(s, e);
    var after := Step(s, e).calls;
    forall i | 0 <= i < |after| ensures Warranted(es + [e], after[i].account, after[i].key, after[i].txn) {
      WarrantStays(es, e, after[i].account, after[i].key, after[i].txn);
    }
  }

  lemma {:induction false} RunInTime(es: seq<Event>)
    ensures InTime(es, Run(Init, es))
    decreases |es|
  {
    if es != [] {
      var before, e := es[..|es| - 1], es[|es| - 1];
      assert es == before + [e];
      RunInTime(before);
      RunAppend(Init, before, e);
      var s := Run(Init, before);
      TransactionsInTime(before, s, e);
      PcInTime(before, s, e);
      CallsInTime(before, s, e);
    }
  }

  /** Over every run, a transaction that reaches the backend was prepared for that account and was
      asked to be committed under that key less than five minutes later: an expired transaction is
      never dispatched. */
  lemma ExpiredIsNeverDispatched(es: seq<Event>, i: nat)
    requires i < |Run(Init, es).calls|
    ensures var call := Run(Init, es).calls[i]; Warranted(es, call.account, call.key, call.txn)
  {
    RunInTime(es);
  }

  /** No crash, no commit of `t`, and no sweep at or after `until`. */
  predicate Meanwhile(e: Event, t: TxnId, until: Time) {
    !e.Crash? && !(e.Admit? && e.txn == t) && (e.Prepare? || e.Reap? ==> e.now < until)
  }

  /** Nobody is committing `t`. */
  predicate Uncommitted(s: State, t: TxnId) {
    s.pc.Idle? || s.pc.c.txn != t
  }

  lemma StepSpares(s: State, e: Event, t: TxnId)
    requires TransactionsInv(s.transactions, s.issued) && t in s.transactions && Uncommitted(s, t)
    requires Meanwhile(e, t, s.transactions[t].expiresAt)
    ensures t in Step(s, e).transactions && Step(s, e).transactions[t] == s.transactions[t] && Uncommitted(Step(s, e), t)
  {
    if !e.Admit? { SameCommitGoesOn(s, e); }
    if !Touches(e) { OthersTouchNone(s, e); }
  }

  lemma {:induction false} StaysPrepared(s: State, es: seq<Event>, t: TxnId)
    requires Inv(s) && t in s.transactions && Uncommitted(s, t)
    requires forall i :: 0 <= i < |es| ==> Meanwhile(es[i], t, s.transactions[t].expiresAt)
    ensures var s' := Run(s, es);
            t in s'.transactions && s'.transactions[t] == s.transactions[t] && Uncommitted(s', t)
    decreases |es|
  {
    if es != [] {
      StepSpares(s, es[0], t);
      StepKeeps(s, es[0]);
      StaysPrepared(Step(s, es[0]), es[1..], t);
    }
  }

  lemma PreparedNow(s: State, p: Event)
    requires Inv(s) && p.Prepare? && Enabled(s, p)
    ensures var s' := Step(s, p);
            && p.txn in s'.transactions && Uncommitted(s', p.txn)
            && s'.transactions[p.txn] == Prepared(p.account, p.hash, p.digest, p.now + 300_000_000_000, false)
  {
  }

  lemma LiveIsAdmitted(s: State, e: Event)
    requires e.Admit? && Enabled(s, e) && e.txn in s.transactions && e.now < s.transactions[e.txn].expiresAt
    ensures Step(s, e).pc == Admitted(Commit(e.txn, e.key, s.transactions[e.txn].(committing := true)))
  {
  }

  /** After any run, a transaction prepared at `p.now` is admitted with the content it was prepared with by
      every commit within five minutes, whatever happens in between: other commits, restarts of drivers,
      other preparations and sweeps. */
  lemma CommittableUntilExpiry(es: seq<Event>, p: Event, fs: seq<Event>, e: Event)
    requires p.Prepare? && Enabled(Run(Init, es), p)
    requires forall i :: 0 <= i < |fs| ==> Meanwhile(fs[i], p.txn, p.now + 300_000_000_000)
    requires e.Admit? && e.txn == p.txn && e.now < p.now + 300_000_000_000
    requires Enabled(Run(Step(Run(Init, es), p), fs), e)
    ensures var prepared := Prepared(p.account, p.hash, p.digest, p.now + 300_000_000_000, true);
            Step(Run(Step(Run(Init, es), p), fs), e).pc == Admitted(Commit(p.txn, e.key, prepared))
  {
    RunKeeps(Init, es);
    var s := Run(Init, es);
    PreparedNow(s, p);
    StepKeeps(s, p);
    StaysPrepared(Step(s, p), fs, p.txn);
    LiveIsAdmitted(Run(Step(s, p), fs), e);
  }

  /** A sweep drops exactly the expired transactions that nobody commits and whose staging can go. */
  lemma SweptExactly(s: State, now: Time, stuck: set<TxnId>, t: TxnId)
    requires t in s.transactions
    ensures t !in Step(s, Reap(now, stuck)).transactions <==>
            s.transactions[t].expiresAt <= now && !s.transactions[t].committing && t !in stuck
  {
  }
}
