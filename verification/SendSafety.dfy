/** Safety of the send protocol over every run: at most one backend.Send per idempotency
    key and per transaction, and the life of each journal row. */
module SendSafety {
  import opened SendJournal
  import opened SendProtocol

  type Journals = map<AccountId, Journal>
  type Owners = map<TxnId, AccountId>

  /** No two invocations share an account and key, nor a transaction. */
  ghost predicate AtMostOnce(calls: seq<Call>) {
    forall i, j :: 0 <= i < j < |calls| ==>
      !(calls[i].account == calls[j].account && calls[i].key == calls[j].key) && calls[i].txn != calls[j].txn
  }

  /** Neither the key nor the transaction of `c` has reached the backend. */
  ghost predicate Fresh(calls: seq<Call>, c: Commit) {
    forall i :: 0 <= i < |calls| ==>
      !(calls[i].account == c.prepared.account && calls[i].key == c.key) && calls[i].txn != c.txn
  }

  /** One account's journal: indexes agree, every row's transaction was issued for it. */
  ghost predicate JournalOk(j: Journal, a: AccountId, issued: Owners) {
    Coherent(j) && forall t :: t in j.byTxn ==> t in issued && issued[t] == a
  }

  ghost predicate JournalInv(journals: Journals, retired: set<AccountId>, issued: Owners) {
    forall a :: a in journals ==> a !in retired && JournalOk(journals[a], a, issued)
  }

  ghost predicate Recorded(j: Journal, call: Call) {
    call.key in j.rows && j.rows[call.key].txn == call.txn
  }

  /** An invocation belongs to its transaction's account and is still on record there. */
  ghost predicate OnRecord(journals: Journals, retired: set<AccountId>, issued: Owners, call: Call) {
    && call.txn in issued && issued[call.txn] == call.account
    && (if call.account in journals then Recorded(journals[call.account], call) else call.account in retired)
  }

  ghost predicate CallsInv(journals: Journals, retired: set<AccountId>, issued: Owners, calls: seq<Call>) {
    AtMostOnce(calls) && forall i :: 0 <= i < |calls| ==> OnRecord(journals, retired, issued, calls[i])
  }

  ghost predicate Called(calls: seq<Call>, a: AccountId, k: Key) {
    exists i :: 0 <= i < |calls| && calls[i].account == a && calls[i].key == k
  }

  ghost predicate ActiveInv(accounts: set<AccountId>, drivers: map<InstanceId, Driver>, active: map<AccountId, InstanceId>) {
    forall a :: a in active ==> a in accounts && Serves(drivers, active[a], a)
  }

  ghost predicate Serves(drivers: map<InstanceId, Driver>, i: InstanceId, a: AccountId) {
    i in drivers && drivers[i].account == a
  }

  /** Everything the driver remembers did reach the backend. */
  ghost predicate MemoInv(drivers: map<InstanceId, Driver>, calls: seq<Call>) {
    forall i, k :: i in drivers && k in drivers[i].memos ==> Called(calls, drivers[i].account, k)
  }

  ghost predicate TransactionsInv(transactions: map<TxnId, Prepared>, issued: Owners) {
    forall t :: t in transactions ==> t in issued && issued[t] == transactions[t].account
  }

  ghost predicate Issued(issued: Owners, c: Commit) {
    c.txn in issued && issued[c.txn] == c.prepared.account
  }

  /** The reservation of `c` is on disk. */
  ghost predicate RowHeld(journals: Journals, c: Commit) {
    c.prepared.account in journals && Holds(journals[c.prepared.account], c.key, c.txn, c.prepared.hash)
  }

  ghost predicate PcInv(pc: Pc, journals: Journals, drivers: map<InstanceId, Driver>, issued: Owners, calls: seq<Call>) {
    && (!pc.Idle? ==> Issued(issued, pc.c))
    && (pc.Bound? || pc.Reserved? || pc.InDriver? || pc.Dispatched? ==> Serves(drivers, pc.inst, pc.c.prepared.account))
    && (pc.Reserved? || pc.InDriver? || pc.Dispatched? || pc.Returned? ==> RowHeld(journals, pc.c))
    && (pc.Reserved? || pc.InDriver? || (pc.Returned? && pc.failed && !pc.result.uncertain) ==> Fresh(calls, pc.c))
    && (pc.Dispatched? ==> Called(calls, pc.c.prepared.account, pc.c.key))
  }

  ghost predicate Inv(s: State) {
    && JournalInv(s.journals, s.retired, s.issued)
    && CallsInv(s.journals, s.retired, s.issued, s.calls)
    && ActiveInv(s.journals.Keys, s.drivers, s.active)
    && MemoInv(s.drivers, s.calls)
    && TransactionsInv(s.transactions, s.issued)
    && PcInv(s.pc, s.journals, s.drivers, s.issued, s.calls)
  }

  lemma RegisterKeeps(s: State, a: AccountId)
    requires Inv(s)
    ensures Inv(Step(s, Register(a)))
  {
  }

  lemma CrashKeeps(s: State)
    requires Inv(s)
    ensures Inv(Step(s, Crash))
  {
  }

  /** Removal destroys a journal, and with it the account: its calls stay unrepeatable
      because the account never comes back. */
  lemma RemoveKeeps(s: State, a: AccountId)
    requires Inv(s)
    ensures Inv(Step(s, Remove(a)))
  {
    if a in s.journals && a !in s.active && s.pc.Idle? {
      forall i | 0 <= i < |s.calls|
        ensures OnRecord(s.journals - {a}, s.retired + {a}, s.issued, s.calls[i])
      {
        assert OnRecord(s.journals, s.retired, s.issued, s.calls[i]);
      }
    }
  }

  lemma StartKeeps(s: State, a: AccountId, i: InstanceId)
    requires Inv(s)
    ensures Inv(Step(s, Start(a, i)))
  {
  }

  lemma StopKeeps(s: State, i: InstanceId)
    requires Inv(s)
    ensures Inv(Step(s, Stop(i)))
  {
  }

  lemma PrepareKeeps(s: State, e: Event)
    requires Inv(s) && e.Prepare?
    ensures Inv(Step(s, e))
  {
  }

  lemma ReapKeeps(s: State, e: Event)
    requires Inv(s) && e.Reap?
    ensures Inv(Step(s, e))
  {
  }

  lemma AdmitKeeps(s: State, e: Event)
    requires Inv(s) && e.Admit?
    ensures Inv(Step(s, e))
  {
  }

  lemma FinishKeeps(s: State, e: Event)
    requires Inv(s) && e.Finish?
    ensures Inv(Step(s, e))
  {
  }

  lemma ChecksKeep(s: State, e: Event)
    requires Inv(s)
    requires e.Bind? || e.DriverRefuses?
    ensures Inv(Step(s, e))
  {
  }

  lemma VetKeeps(s: State, fault: bool, keyFault: bool)
    requires Inv(s)
    ensures Inv(Step(s, Vet(fault, keyFault)))
  {
  }

  /** Behind the journal the driver's memo is never consulted with success: a reserved key
      has not reached the backend, and only keys that did are remembered. */
  lemma MemoNeverHit(s: State)
    requires Inv(s) && s.pc.Reserved?
    ensures s.pc.c.key !in s.drivers[s.pc.inst].memos
  {
    assert !Called(s.calls, s.pc.c.prepared.account, s.pc.c.key);
  }

  lemma EnterKeeps(s: State, refused: bool)
    requires Inv(s)
    ensures Inv(Step(s, EnterDriver(refused)))
  {
    if s.pc.Reserved? { MemoNeverHit(s); }
  }

  /** A key or transaction without a row never reached the backend. */
  lemma UnrecordedIsFresh(s: State, c: Commit)
    requires Inv(s) && Issued(s.issued, c) && c.prepared.account in s.journals
    requires CanReserve(s.journals[c.prepared.account], c.key, c.txn)
    ensures Fresh(s.calls, c)
  {
    forall i | 0 <= i < |s.calls|
      ensures !(s.calls[i].account == c.prepared.account && s.calls[i].key == c.key) && s.calls[i].txn != c.txn
    {
      assert OnRecord(s.journals, s.retired, s.issued, s.calls[i]);
    }
  }

  /** Replacing one journal keeps every call on record as long as its rows keep theirs. */
  lemma JournalUpdate(s: State, a: AccountId, j: Journal)
    requires Inv(s) && a in s.journals && JournalOk(j, a, s.issued)
    requires forall i :: 0 <= i < |s.calls| && s.calls[i].account == a && Recorded(s.journals[a], s.calls[i])
               ==> Recorded(j, s.calls[i])
    ensures JournalInv(s.journals[a := j], s.retired, s.issued)
    ensures CallsInv(s.journals[a := j], s.retired, s.issued, s.calls)
    ensures s.journals[a := j].Keys == s.journals.Keys
  {
    forall i | 0 <= i < |s.calls| ensures OnRecord(s.journals[a := j], s.retired, s.issued, s.calls[i]) {
      assert OnRecord(s.journals, s.retired, s.issued, s.calls[i]);
    }
  }

  lemma ReserveJournals(s: State, io: Io)
    requires Inv(s) && s.pc.Bound? && Effective(s.journals, s.pc.c, io)
    ensures var js := ReserveIn(s.journals, s.pc.c, io);
            && JournalInv(js, s.retired, s.issued) && CallsInv(js, s.retired, s.issued, s.calls)
            && js.Keys == s.journals.Keys
  {
    var c, a := s.pc.c, s.pc.c.prepared.account;
    JournalUpdate(s, a, Reserve(s.journals[a], c.key, c.txn, c.prepared.hash, Provisional));
  }

  lemma ReserveKeeps(s: State, io: Io)
    requires Inv(s)
    ensures Inv(Step(s, ReserveRow(io)))
  {
    if s.pc.Bound? && Effective(s.journals, s.pc.c, io) {
      var c, a := s.pc.c, s.pc.c.prepared.account;
      ReserveJournals(s, io);
      if CanReserve(s.journals[a], c.key, c.txn) { UnrecordedIsFresh(s, c); }
    }
  }

  lemma CalledGrows(calls: seq<Call>, call: Call, a: AccountId, k: Key)
    requires Called(calls, a, k) || (call.account == a && call.key == k)
    ensures Called(calls + [call], a, k)
  {
    if Called(calls, a, k) {
      var i :| 0 <= i < |calls| && calls[i].account == a && calls[i].key == k;
      assert (calls + [call])[i] == calls[i];
    } else {
      assert (calls + [call])[|calls|] == call;
    }
  }

  lemma DispatchKeeps(s: State)
    requires Inv(s)
    ensures Inv(Step(s, Dispatch))
  {
    if s.pc.InDriver? {
      var c := s.pc.c;
      var call := Call(c.prepared.account, c.key, c.txn);
      forall i, k | i in s.drivers && k in s.drivers[i].memos
        ensures Called(s.calls + [call], s.drivers[i].account, k)
      {
        CalledGrows(s.calls, call, s.drivers[i].account, k);
      }
      CalledGrows(s.calls, call, call.account, call.key);
    }
  }

  /** What the driver remembers is only ever a key that was just dispatched. */
  lemma RememberKeeps(drivers: map<InstanceId, Driver>, i: InstanceId, c: Commit, m: Memo, calls: seq<Call>,
                      accounts: set<AccountId>, active: map<AccountId, InstanceId>)
    requires MemoInv(drivers, calls) && ActiveInv(accounts, drivers, active)
    requires Serves(drivers, i, c.prepared.account) && Called(calls, c.prepared.account, c.key)
    ensures MemoInv(Remember(drivers, i, c, m), calls)
    ensures ActiveInv(accounts, Remember(drivers, i, c, m), active)
  {
    var drivers' := Remember(drivers, i, c, m);
    assert forall i' :: i' in drivers' ==> i' in drivers && drivers'[i'].account == drivers[i'].account;
  }

  lemma BackendKeeps(s: State, end: BackendEnd)
    requires Inv(s)
    ensures Inv(Step(s, BackendReturns(end)))
  {
    if s.pc.Dispatched? {
      var m := Memo(s.pc.c.prepared.digest, EndResult(end), !end.Confirmed?);
      RememberKeeps(s.drivers, s.pc.inst, s.pc.c, m, s.calls, s.journals.Keys, s.active);
    }
  }

  lemma SettleJournals(s: State, io: Io)
    requires Inv(s) && s.pc.Returned?
    ensures var js := SettleIn(s.journals, s.pc.c, s.pc.result, s.pc.failed, io);
            && JournalInv(js, s.retired, s.issued) && CallsInv(js, s.retired, s.issued, s.calls)
            && js.Keys == s.journals.Keys
  {
    if Effective(s.journals, s.pc.c, io) {
      var c, a := s.pc.c, s.pc.c.prepared.account;
      if CleanRefusal(s.pc.result, s.pc.failed) {
        JournalUpdate(s, a, Delete(s.journals[a], c.key, c.txn, c.prepared.hash));
      } else {
        JournalUpdate(s, a, Finalize(s.journals[a], c.key, c.txn, c.prepared.hash, Final(s.pc.result)));
      }
    }
  }

  lemma SettleKeeps(s: State, io: Io)
    requires Inv(s)
    ensures Inv(Step(s, Settle(io)))
  {
    if s.pc.Returned? {
      SettleJournals(s, io);
    }
  }

  lemma StepKeeps(s: State, e: Event)
    requires Inv(s)
    ensures Inv(Step(s, e))
  {
    match e
    case Register(a) => RegisterKeeps(s, a);
    case Remove(a) => RemoveKeeps(s, a);
    case Start(a, i) => StartKeeps(s, a, i);
    case Stop(i) => StopKeeps(s, i);
    case Crash => CrashKeeps(s);
    case Prepare(_, _, _, _, _, _) => PrepareKeeps(s, e);
    case Reap(_, _) => ReapKeeps(s, e);
    case Admit(_, _, _, _, _, _) => AdmitKeeps(s, e);
    case Finish(_, _, _) => FinishKeeps(s, e);
    case Vet(fault, keyFault) => VetKeeps(s, fault, keyFault);
    case Bind => ChecksKeep(s, e);
    case EnterDriver(refused) => EnterKeeps(s, refused);
    case DriverRefuses => ChecksKeep(s, e);
    case ReserveRow(io) => ReserveKeeps(s, io);
    case Dispatch => DispatchKeeps(s);
    case BackendReturns(end) => BackendKeeps(s, end);
    case Settle(io) => SettleKeeps(s, io);
  }

  lemma {:induction false} RunKeeps(s: State, es: seq<Event>)
    requires Inv(s)
    ensures Inv(Run(s, es))
    decreases |es|
  {
    if es != [] {
      StepKeeps(s, es[0]);
      RunKeeps(Step(s, es[0]), es[1..]);
    }
  }

  lemma {:induction false} RunAppend(s: State, es: seq<Event>, e: Event)
    ensures Run(s, es + [e]) == Step(Run(s, es), e)
    decreases |es|
  {
    if es == [] {
      assert [e][1..] == [];
    } else {
      assert (es + [e])[1..] == es[1..] + [e];
      RunAppend(Step(s, es[0]), es[1..], e);
    }
  }

  lemma {:induction false} RunConcat(s: State, es: seq<Event>, fs: seq<Event>)
    ensures Run(s, es + fs) == Run(Run(s, es), fs)
    decreases |es|
  {
    if es == [] {
      assert es + fs == fs;
    } else {
      assert (es + fs)[1..] == es[1..] + fs;
      RunConcat(Step(s, es[0]), es[1..], fs);
    }
  }

  /** Over every run, with crashes and restarts anywhere, no idempotency key of an account and
      no transaction reaches backend.Send twice. */
  lemma SentAtMostOnce(es: seq<Event>)
    ensures AtMostOnce(Run(Init, es).calls)
  {
    RunKeeps(Init, es);
  }
}
