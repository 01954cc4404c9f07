/** What callers of `CommitSend` can rely on over every run: the life of a journal row, and
    the replies a committed transaction gives from then on. */
module SendOutcomes {
  import opened SendJournal
  import opened SendProtocol
  import opened SendSafety

  /** The running commit holds the reservation of key `k` in account `a`. */
  predicate Owner(pc: Pc, a: AccountId, k: Key) {
    (pc.Reserved? || pc.InDriver? || pc.Dispatched? || pc.Returned?) && pc.c.prepared.account == a && pc.c.key == k
  }

  predicate HasRow(s: State, a: AccountId, k: Key) {
    a in s.journals && k in s.journals[a].rows
  }

  function RowOf(s: State, a: AccountId, k: Key): Row
    requires HasRow(s, a, k)
  {
    s.journals[a].rows[k]
  }

  /** The events that touch a journal. */
  predicate Writes(e: Event) {
    e.Register? || e.Remove? || e.ReserveRow? || e.Settle?
  }

  lemma OthersOnlyRead(s: State, e: Event)
    requires !Writes(e)
    ensures Step(s, e).journals == s.journals && Step(s, e).retired == s.retired
  {
    match e
    case Start(_, _) =>
    case Stop(_) =>
    case Prepare(_, _, _, _, _, _) =>
    case Reap(_, _) =>
    case Admit(_, _, _, _, _, _) =>
    case Vet(_, _) =>
    case Bind =>
    case EnterDriver(_) =>
    case DriverRefuses =>
    case Dispatch =>
    case BackendReturns(_) =>
    case Finish(_, _, _) =>
    case Crash =>
  }

  /** A row comes into being only as the in-flight reservation of the running commit. */
  lemma RowsAreBornInFlight(s: State, e: Event, a: AccountId, k: Key)
    requires Inv(s) && !HasRow(s, a, k) && HasRow(Step(s, e), a, k)
    ensures e.ReserveRow? && s.pc.Bound? && s.pc.c.prepared.account == a && s.pc.c.key == k
    ensures RowOf(Step(s, e), a, k) ==
            Row(s.pc.c.txn, s.pc.c.prepared.hash, InFlight, SendResult(0, false, true, DurablyReserved))
  {
    if !Writes(e) { OthersOnlyRead(s, e); }
  }

  /** Apart from the settling step, a row goes only with its account and otherwise stays. */
  lemma OthersSpareRows(s: State, e: Event, a: AccountId, k: Key)
    requires HasRow(s, a, k) && !e.Settle?
    ensures e == Remove(a) || (HasRow(Step(s, e), a, k) && RowOf(Step(s, e), a, k) == RowOf(s, a, k))
  {
    if !Writes(e) { OthersOnlyRead(s, e); }
  }

  /** The settling step deletes or finalizes the in-flight row that the commit owns, and no other. */
  lemma SettleTouchesOwn(s: State, io: Io, a: AccountId, k: Key)
    requires HasRow(s, a, k) && s.pc.Returned?
    ensures var t := Step(s, Settle(io));
            || (HasRow(t, a, k) && RowOf(t, a, k) == RowOf(s, a, k))
            || (&& Owner(s.pc, a, k) && RowOf(s, a, k).state == InFlight && RowOf(s, a, k).txn == s.pc.c.txn
                && (if CleanRefusal(s.pc.result, s.pc.failed) then !HasRow(t, a, k)
                    else HasRow(t, a, k) && RowOf(t, a, k) == RowOf(s, a, k).(state := Terminal, result := Final(s.pc.result))))
  {
  }

  /** A row disappears only with its whole account, or because the driver refused cleanly; in
      the second case neither its key nor its transaction ever reached the backend. */
  lemma RowsDieUnsent(s: State, e: Event, a: AccountId, k: Key)
    requires Inv(s) && HasRow(s, a, k) && !HasRow(Step(s, e), a, k)
    ensures e == Remove(a) ||
            (&& e.Settle? && Owner(s.pc, a, k) && s.pc.Returned? && s.pc.failed && !s.pc.result.uncertain
             && RowOf(s, a, k).state == InFlight && Fresh(s.calls, s.pc.c) && RowOf(s, a, k).txn == s.pc.c.txn)
  {
    if e.Settle? {
      if s.pc.Returned? { SettleTouchesOwn(s, e.io, a, k); }
    } else {
      OthersSpareRows(s, e, a, k);
    }
  }

  /** A surviving row either stays as it is or is finalized by the commit that owns it. */
  lemma RowsOnlySettle(s: State, e: Event, a: AccountId, k: Key)
    requires Inv(s) && HasRow(s, a, k) && HasRow(Step(s, e), a, k)
    ensures RowOf(Step(s, e), a, k) == RowOf(s, a, k) ||
            (&& Owner(s.pc, a, k) && RowOf(s, a, k).state == InFlight && RowOf(Step(s, e), a, k).state == Terminal
             && RowOf(Step(s, e), a, k).txn == RowOf(s, a, k).txn && RowOf(Step(s, e), a, k).hash == RowOf(s, a, k).hash)
  {
    if e.Settle? {
      if s.pc.Returned? { SettleTouchesOwn(s, e.io, a, k); }
    } else {
      OthersSpareRows(s, e, a, k);
    }
  }

  /** A row nobody is working on: terminal, or left in flight by a crash. */
  predicate AtRest(s: State, a: AccountId, k: Key, row: Row) {
    HasRow(s, a, k) && RowOf(s, a, k) == row && !Owner(s.pc, a, k)
  }

  /** A commit comes to own a key only by inserting its row. */
  lemma OwnersReserve(s: State, e: Event, a: AccountId, k: Key)
    requires !Owner(s.pc, a, k) && HasRow(s, a, k)
    ensures !Owner(Step(s, e).pc, a, k)
  {
    match e
    case ReserveRow(_) =>
    case EnterDriver(_) =>
    case _ =>
  }

  lemma RestKept(s: State, e: Event, a: AccountId, k: Key, row: Row)
    requires Inv(s) && AtRest(s, a, k, row)
    ensures AtRest(Step(s, e), a, k, row) || e == Remove(a)
  {
    OwnersReserve(s, e, a, k);
    if HasRow(Step(s, e), a, k) {
      RowsOnlySettle(s, e, a, k);
    } else {
      RowsDieUnsent(s, e, a, k);
    }
  }

  lemma RetiredGrows(s: State, e: Event)
    ensures s.retired <= Step(s, e).retired
    ensures e.Remove? && e.account in s.journals && e.account !in Step(s, e).journals ==> e.account in Step(s, e).retired
  {
    if !Writes(e) { OthersOnlyRead(s, e); }
  }

  lemma {:induction false} RetiredForever(s: State, es: seq<Event>)
    ensures s.retired <= Run(s, es).retired
    decreases |es|
  {
    if es != [] {
      RetiredGrows(s, es[0]);
      RetiredForever(Step(s, es[0]), es[1..]);
    }
  }

  /** Since call `m`, neither the row's key nor its transaction reached the backend. */
  ghost predicate QuietSince(s: State, m: nat, a: AccountId, k: Key, row: Row) {
    m <= |s.calls| && forall i :: m <= i < |s.calls| ==>
      !(s.calls[i].account == a && s.calls[i].key == k) && s.calls[i].txn != row.txn
  }

  lemma QuietKept(s: State, e: Event, m: nat, a: AccountId, k: Key, row: Row)
    requires Inv(s) && AtRest(s, a, k, row) && QuietSince(s, m, a, k, row)
    ensures QuietSince(Step(s, e), m, a, k, row)
  {
    if e.Dispatch? && s.pc.InDriver? {
      assert JournalOk(s.journals[a], a, s.issued);
    } else if !e.Dispatch? {
      OnlyDispatchCalls(s, e);
    }
  }

  lemma OnlyDispatchCalls(s: State, e: Event)
    requires !e.Dispatch?
    ensures Step(s, e).calls == s.calls
  {
    match e
    case Admit(_, _, _, _, _, _) =>
    case BackendReturns(_) =>
    case _ =>
  }

  /** Terminal rows never change, and a row orphaned by a crash is never deleted, settled or
      dispatched again: over every later run the row stays as it is, and nothing is sent for its
      key or its transaction, while its account is registered. */
  lemma {:induction false} RestForever(s: State, es: seq<Event>, m: nat, a: AccountId, k: Key, row: Row)
    requires Inv(s) && AtRest(s, a, k, row) && QuietSince(s, m, a, k, row)
    ensures (AtRest(Run(s, es), a, k, row) && QuietSince(Run(s, es), m, a, k, row)) || a in Run(s, es).retired
    decreases |es|
  {
    if es != [] {
      var s' := Step(s, es[0]);
      StepKeeps(s, es[0]);
      RestKept(s, es[0], a, k, row);
      QuietKept(s, es[0], m, a, k, row);
      if AtRest(s', a, k, row) {
        RestForever(s', es[1..], m, a, k, row);
      } else {
        RetiredGrows(s, es[0]);
        RetiredForever(s', es[1..]);
      }
    }
  }

  /** After a crash every row is at rest. */
  lemma CrashOrphansRows(s: State, a: AccountId, k: Key)
    requires HasRow(s, a, k)
    ensures AtRest(Step(s, Crash), a, k, RowOf(s, a, k))
  {
  }

  /** What a caller has to be told about a stored result: a success exactly for a verified message
      that is not marked uncertain, and the result itself either way. */
  ghost predicate Conveys(o: Outcome, r: SendResult) {
    && (o == Sent(r) <==> r.verified && !r.uncertain)
    && (o == Uncertain(r) <==> !r.verified || r.uncertain)
  }

  /** The one right answer to a commit under key `k'` of the transaction whose row is `row` under key `k`. */
  ghost predicate Answers(o: Outcome, k: Key, row: Row, k': Key) {
    if k' == k then Conveys(o, row.result) else o == Conflict
  }

  /** The account listed at position `i` is the first that cannot be read, or the holder. */
  predicate ReadableUpTo(order: seq<AccountId>, unreadable: set<AccountId>, a: AccountId) {
    if order == [] then false
    else order[0] !in unreadable && (order[0] == a || ReadableUpTo(order[1..], unreadable, a))
  }

  /** The scan finds a committed transaction exactly when every account listed up to its own
      can be opened; one unreadable account before it, for instance one whose deletion did not
      finish, hides the stored result. */
  lemma {:induction false} FoundExactly(order: seq<AccountId>, s: State, unreadable: set<AccountId>,
                                        a: AccountId, k: Key, k': Key)
    requires JournalInv(s.journals, s.retired, s.issued) && HasRow(s, a, k) && a in order
    requires forall b :: b in order ==> b in s.journals
    ensures var found := FindCommitted(order, s.journals, unreadable, RowOf(s, a, k).txn, k');
            if !ReadableUpTo(order, unreadable, a) then found == Unavailable
            else Answers(found, k, RowOf(s, a, k), k')
  {
    var t := RowOf(s, a, k).txn;
    assert order[0] in s.journals;
    assert JournalOk(s.journals[a], a, s.issued);
    if order[0] != a {
      assert t !in s.journals[order[0]].byTxn by { assert JournalOk(s.journals[order[0]], order[0], s.issued); }
      if order[0] !in unreadable {
        FoundExactly(order[1..], s, unreadable, a, k, k');
      }
    }
  }

  /** The scan comes back empty-handed exactly when every index opens and none knows the transaction. */
  lemma {:induction false} NotFoundExactly(order: seq<AccountId>, journals: Journals, unreadable: set<AccountId>, t: TxnId, k: Key)
    ensures FindCommitted(order, journals, unreadable, t, k) == NotFound <==>
            forall a :: a in order ==> a in journals && a !in unreadable && t !in journals[a].byTxn
  {
    if order != [] {
      NotFoundExactly(order[1..], journals, unreadable, t, k);
      assert forall a :: a in order <==> a == order[0] || a in order[1..];
    }
  }

  /** When every index opens, the holder is reached. */
  lemma {:induction false} AllReadable(order: seq<AccountId>, a: AccountId)
    requires a in order
    ensures ReadableUpTo(order, {}, a)
  {
    if order[0] != a {
      AllReadable(order[1..], a);
    }
  }

  /** The event meets no index that fails to open. */
  predicate Opens(e: Event) {
    (e.Admit? ==> e.unreadable == {}) && (e.Vet? ==> !e.fault)
  }

  /** With every index open only the right answer will do; otherwise it may be withheld. */
  ghost predicate Faithful(o: Outcome, open: bool, k: Key, row: Row, k': Key) {
    Answers(o, k, row, k') || (!open && o == Unavailable)
  }

  /** Since reply `n`, everything said about the transaction of `row` was faithful. */
  ghost predicate FaithfulSince(s: State, open: bool, n: nat, k: Key, row: Row) {
    && n <= |s.replies|
    && (forall i :: n <= i < |s.replies| && s.replies[i].txn == row.txn ==>
          Faithful(s.replies[i].outcome, open, k, row, s.replies[i].key))
    && (s.pc.Idle? || s.pc.c.txn != row.txn || s.pc.Admitted? ||
        (s.pc.Settled? && Faithful(s.pc.outcome, open, k, row, s.pc.c.key)))
  }

  lemma FaithfulAdmit(s: State, e: Event, open: bool, n: nat, a: AccountId, k: Key, row: Row)
    requires Inv(s) && AtRest(s, a, k, row) && FaithfulSince(s, open, n, k, row)
    requires e.Admit? && Enabled(s, e) && (open ==> Opens(e))
    ensures FaithfulSince(Step(s, e), open, n, k, row)
  {
    if !Live(s.transactions, e.txn, e.now) && e.txn == row.txn {
      assert a in (set b | b in e.order);
      assert forall b :: b in e.order ==> b in (set b | b in e.order);
      FoundExactly(e.order, s, e.unreadable, a, k, e.key);
      AllReadable(e.order, a);
    }
  }

  /** The running commit of the row's transaction is answered from the row. */
  lemma FaithfulVet(s: State, e: Event, open: bool, n: nat, a: AccountId, k: Key, row: Row)
    requires Inv(s) && AtRest(s, a, k, row) && FaithfulSince(s, open, n, k, row)
    requires e.Vet? && Enabled(s, e) && (open ==> Opens(e))
    ensures FaithfulSince(Step(s, e), open, n, k, row)
  {
    assert JournalOk(s.journals[a], a, s.issued);
  }

  lemma FaithfulKept(s: State, e: Event, open: bool, n: nat, a: AccountId, k: Key, row: Row)
    requires Inv(s) && AtRest(s, a, k, row) && FaithfulSince(s, open, n, k, row) && (open ==> Opens(e))
    ensures FaithfulSince(Step(s, e), open, n, k, row)
  {
    if Enabled(s, e) {
      match e
      case Admit(_, _, _, _, _, _) => FaithfulAdmit(s, e, open, n, a, k, row);
      case Vet(_, _) => FaithfulVet(s, e, open, n, a, k, row);
      case Finish(_, _, _) =>
      case _ => QuietReplies(s, e);
    }
  }

  /** Every other step keeps the replies and stays with the same commit. */
  lemma QuietReplies(s: State, e: Event)
    requires Enabled(s, e) && !e.Admit? && !e.Vet? && !e.Finish?
    ensures Next(s, e).replies == s.replies
    ensures Next(s, e).pc.Idle? || Next(s, e).pc == s.pc ||
            (!s.pc.Idle? && !s.pc.Admitted? && !s.pc.Settled? && Next(s, e).pc.c == s.pc.c)
  {
  }

  /** Once a transaction has a row at rest, every later commit of it is answered from the row
      alone: as long as every index opens, the same key gets exactly the stored result and another
      key a conflict; an index that does not open can withhold the answer, never change it.  This
      survives crashes, expiry and restarts, as long as the account stays registered. */
  lemma {:induction false} RepliesForever(s: State, es: seq<Event>, open: bool, n: nat, a: AccountId, k: Key, row: Row)
    requires Inv(s) && AtRest(s, a, k, row) && FaithfulSince(s, open, n, k, row)
    requires open ==> forall i :: 0 <= i < |es| ==> Opens(es[i])
    ensures FaithfulSince(Run(s, es), open, n, k, row) || a in Run(s, es).retired
    decreases |es|
  {
    if es != [] {
      var s' := Step(s, es[0]);
      StepKeeps(s, es[0]);
      RestKept(s, es[0], a, k, row);
      FaithfulKept(s, es[0], open, n, a, k, row);
      if AtRest(s', a, k, row) {
        RepliesForever(s', es[1..], open, n, a, k, row);
      } else {
        RetiredGrows(s, es[0]);
        RetiredForever(s', es[1..]);
      }
    }
  }

  /** From an idle moment on, the account still registered, a row that existed then is still there,
      answers every reply about its transaction, and is not dispatched. */
  lemma AnsweredSince(s: State, es: seq<Event>, open: bool, a: AccountId, k: Key)
    requires Inv(s) && s.pc.Idle? && HasRow(s, a, k) && a !in Run(s, es).retired
    requires open ==> forall i :: 0 <= i < |es| ==> Opens(es[i])
    ensures FaithfulSince(Run(s, es), open, |s.replies|, k, RowOf(s, a, k))
    ensures QuietSince(Run(s, es), |s.calls|, a, k, RowOf(s, a, k))
    ensures AtRest(Run(s, es), a, k, RowOf(s, a, k))
  {
    RepliesForever(s, es, open, |s.replies|, a, k, RowOf(s, a, k));
    RestForever(s, es, |s.calls|, a, k, RowOf(s, a, k));
  }

  /** From a crash on, with every index open: what the journal held for a transaction is what every
      later commit of it is told, and nothing more is sent for it. */
  lemma StoredResultIsReturned(s: State, es: seq<Event>, a: AccountId, k: Key, i: nat)
    requires Inv(s) && HasRow(s, a, k) && forall j :: 0 <= j < |es| ==> Opens(es[j])
    requires a !in Run(Step(s, Crash), es).retired
    requires |s.replies| <= i < |Run(Step(s, Crash), es).replies|
    ensures var t, row := Run(Step(s, Crash), es), RowOf(s, a, k);
            && HasRow(t, a, k) && RowOf(t, a, k) == row && QuietSince(t, |s.calls|, a, k, row)
            && (t.replies[i].txn == row.txn ==> Answers(t.replies[i].outcome, k, row, t.replies[i].key))
  {
    StepKeeps(s, Crash);
    CrashOrphansRows(s, a, k);
    AnsweredSince(Step(s, Crash), es, true, a, k);
  }
}
