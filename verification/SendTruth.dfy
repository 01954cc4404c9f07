/** No false success: a commit is reported as sent only if the backend was invoked for that
    account and key and its driver verified the message. */
module SendTruth {
  import opened SendJournal
  import opened SendProtocol
  import opened SendSafety
  import opened SendOutcomes

  ghost predicate RowsBacked(journals: Journals, calls: seq<Call>) {
    forall a, k :: a in journals && k in journals[a].rows && journals[a].rows[k].result.verified ==> Called(calls, a, k)
  }

  ghost predicate PcBacked(pc: Pc, calls: seq<Call>) {
    && (pc.Returned? && pc.result.verified ==> Called(calls, pc.c.prepared.account, pc.c.key))
    && (pc.Settled? && pc.outcome.Sent? ==> Called(calls, pc.c.prepared.account, pc.c.key))
  }

  ghost predicate RepliesBacked(replies: seq<Reply>, issued: Owners, calls: seq<Call>) {
    forall i :: 0 <= i < |replies| && replies[i].outcome.Sent? ==>
      replies[i].txn in issued && Called(calls, issued[replies[i].txn], replies[i].key)
  }

  ghost predicate Backed(s: State) {
    RowsBacked(s.journals, s.calls) && PcBacked(s.pc, s.calls) && RepliesBacked(s.replies, s.issued, s.calls)
  }

  lemma {:induction false} FoundIsBacked(order: seq<AccountId>, s: State, unreadable: set<AccountId>, t: TxnId, k: Key)
    requires Inv(s) && RowsBacked(s.journals, s.calls)
    ensures FindCommitted(order, s.journals, unreadable, t, k).Sent? ==> t in s.issued && Called(s.calls, s.issued[t], k)
  {
    if order != [] && order[0] !in unreadable && order[0] in s.journals {
      assert JournalOk(s.journals[order[0]], order[0], s.issued);
      if t !in s.journals[order[0]].byTxn {
        FoundIsBacked(order[1..], s, unreadable, t, k);
      }
    }
  }

  lemma AdmitBacked(s: State, e: Event)
    requires Inv(s) && Backed(s) && e.Admit?
    ensures Backed(Step(s, e))
  {
    FoundIsBacked(e.order, s, e.unreadable, e.txn, e.key);
  }

  lemma DispatchBacked(s: State)
    requires Backed(s)
    ensures Backed(Step(s, Dispatch))
  {
    if s.pc.InDriver? {
      var call := Call(s.pc.c.prepared.account, s.pc.c.key, s.pc.c.txn);
      forall a, k | Called(s.calls, a, k) ensures Called(s.calls + [call], a, k) {
        CalledGrows(s.calls, call, a, k);
      }
      assert RowsBacked(s.journals, s.calls + [call]);
      assert RepliesBacked(s.replies, s.issued, s.calls + [call]);
    }
  }

  lemma CheckBacked(s: State, e: Event)
    requires Inv(s) && Backed(s) && (e.Vet? || e.Bind? || e.DriverRefuses?)
    ensures Backed(Step(s, e))
  {
  }

  lemma EnterBacked(s: State, refused: bool)
    requires Inv(s) && Backed(s)
    ensures Backed(Step(s, EnterDriver(refused)))
  {
    if s.pc.Reserved? { MemoNeverHit(s); }
  }

  lemma ReserveBacked(s: State, io: Io)
    requires Backed(s)
    ensures Backed(Step(s, ReserveRow(io)))
  {
  }

  lemma SettleRows(journals: Journals, c: Commit, r: SendResult, failed: bool, io: Io, calls: seq<Call>)
    requires RowsBacked(journals, calls) && (r.verified ==> Called(calls, c.prepared.account, c.key))
    ensures RowsBacked(SettleIn(journals, c, r, failed, io), calls)
  {
    var js := SettleIn(journals, c, r, failed, io);
    forall a, k | a in js && k in js[a].rows && js[a].rows[k].result.verified ensures Called(calls, a, k) {
      assert a in journals;
      if k != c.key { assert k in Without(js[a], c.key).rows; }
    }
  }

  lemma SettleBacked(s: State, io: Io)
    requires Backed(s)
    ensures Backed(Step(s, Settle(io)))
  {
    if s.pc.Returned? {
      SettleRows(s.journals, s.pc.c, s.pc.result, s.pc.failed, io, s.calls);
    }
  }

  lemma RestBacked(s: State, e: Event)
    requires Backed(s)
    requires e.Register? || e.Remove? || e.Start? || e.Stop? || e.Prepare? || e.Reap? || e.Crash?
    ensures Backed(Step(s, e))
  {
  }

  lemma FinishBacked(s: State, e: Event)
    requires Backed(s) && Inv(s) && (e.Finish? || e.BackendReturns?)
    ensures Backed(Step(s, e))
  {
  }

  lemma StepBacked(s: State, e: Event)
    requires Inv(s) && Backed(s)
    ensures Backed(Step(s, e))
  {
    match e
    case Admit(_, _, _, _, _, _) => AdmitBacked(s, e);
    case Dispatch => DispatchBacked(s);
    case EnterDriver(refused) => EnterBacked(s, refused);
    case ReserveRow(io) => ReserveBacked(s, io);
    case Settle(io) => SettleBacked(s, io);
    case Vet(_, _) => CheckBacked(s, e);
    case Bind => CheckBacked(s, e);
    case DriverRefuses => CheckBacked(s, e);
    case Finish(_, _, _) => FinishBacked(s, e);
    case BackendReturns(_) => FinishBacked(s, e);
    case _ => RestBacked(s, e);
  }

  lemma {:induction false} RunBacked(s: State, es: seq<Event>)
    requires Inv(s) && Backed(s)
    ensures Backed(Run(s, es))
    decreases |es|
  {
    if es != [] {
      StepKeeps(s, es[0]);
      StepBacked(s, es[0]);
      RunBacked(Step(s, es[0]), es[1..]);
    }
  }

  /** Over every run, a reply that reports success names a key the backend was invoked for. */
  lemma SuccessIsBacked(es: seq<Event>, i: nat)
    requires i < |Run(Init, es).replies| && Run(Init, es).replies[i].outcome.Sent?
    ensures var s, r := Run(Init, es), Run(Init, es).replies[i];
            r.txn in s.issued && Called(s.calls, s.issued[r.txn], r.key)
  {
    RunBacked(Init, es);
  }

  /** A success carries a verified result that is not marked uncertain; an uncertain answer does not. */
  ghost predicate Honest(o: Outcome) {
    && (o.Sent? ==> o.result.verified && !o.result.uncertain)
    && (o.Uncertain? ==> !o.result.verified || o.result.uncertain)
  }

  ghost predicate AllHonest(s: State) {
    && (s.pc.Settled? ==> Honest(s.pc.outcome))
    && forall i :: 0 <= i < |s.replies| ==> Honest(s.replies[i].outcome)
  }

  lemma {:induction false} FoundIsHonest(order: seq<AccountId>, journals: Journals, unreadable: set<AccountId>, t: TxnId, k: Key)
    ensures Honest(FindCommitted(order, journals, unreadable, t, k))
  {
    if order != [] {
      FoundIsHonest(order[1..], journals, unreadable, t, k);
    }
  }

  lemma VetHonest(s: State, e: Event)
    requires AllHonest(s) && Enabled(s, e) && (e.Vet? || e.Settle? || e.Finish?)
    ensures AllHonest(Next(s, e))
  {
  }

  lemma StepHonest(s: State, e: Event)
    requires AllHonest(s)
    ensures AllHonest(Step(s, e))
  {
    if Enabled(s, e) {
      match e
      case Admit(t, k, _, _, order, unreadable) => FoundIsHonest(order, s.journals, unreadable, t, k);
      case Vet(_, _) => VetHonest(s, e);
      case Settle(_) => VetHonest(s, e);
      case Finish(_, _, _) => VetHonest(s, e);
      case _ => QuietReplies(s, e); QuietOutcome(s, e);
    }
  }

  lemma QuietOutcome(s: State, e: Event)
    requires Enabled(s, e) && !e.Vet? && !e.Settle? && !e.Admit? && !e.Finish?
    ensures Next(s, e).pc.Settled? ==>
              Next(s, e).pc == s.pc || Next(s, e).pc.outcome == Inactive || Next(s, e).pc.outcome == Conflict
  {
  }

  lemma {:induction false} RunHonest(s: State, es: seq<Event>)
    requires AllHonest(s)
    ensures AllHonest(Run(s, es))
    decreases |es|
  {
    if es != [] {
      StepHonest(s, es[0]);
      RunHonest(Step(s, es[0]), es[1..]);
    }
  }

  /** Over every run, each reply says success exactly when the result it carries is verified and not
      uncertain. */
  lemma RepliesAreHonest(es: seq<Event>, i: nat)
    requires i < |Run(Init, es).replies|
    ensures var o := Run(Init, es).replies[i].outcome;
            o.Sent? || o.Uncertain? ==> (o.Sent? <==> o.result.verified && !o.result.uncertain)
  {
    RunHonest(Init, es);
  }

  /** The row and the reply of the commit that settles it agree, and say "verified" exactly
      when the driver did. */
  lemma SettledRowMatchesReply(s: State)
    requires Inv(s) && s.pc.Returned? && !CleanRefusal(s.pc.result, s.pc.failed)
    ensures var s', a, k := Step(s, Settle(Done)), s.pc.c.prepared.account, s.pc.c.key;
            && a in s'.journals && k in s'.journals[a].rows && s'.journals[a].rows[k].state == Terminal
            && s'.pc.Settled? && s'.pc.c == s.pc.c && s'.pc.consume && Conveys(s'.pc.outcome, s'.journals[a].rows[k].result)
            && (s'.pc.outcome.Sent? <==> s.pc.result.verified && !s.pc.result.uncertain)
            && s'.journals[a].rows[k].result.verified == s.pc.result.verified
            && (s.pc.result.verified ==> s'.journals[a].rows[k].result == s.pc.result)
            && (!s.pc.result.verified ==> s'.journals[a].rows[k].result.uncertain)
  {
  }
}
