/** The message table of an account's index: transactional insertion, and listing by cursor. */
module MessageStore {

  import opened TimeText

  // Identifiers, compared only.
  type Id = nat

  /** `present`: message, external and conversation identifier are all given. */
  datatype Message = Message(id: Id, external: Id, conversation: Id, sentAt: Instant, gap: bool, present: bool)

  datatype Row = Row(sequence: int, m: Message)

  /** `last` is the sequence given out most recently; sequences are never reused. */
  datatype Table = Table(rows: seq<Row>, last: int, conversations: set<Id>)

  datatype Result<T> = Ok(value: T) | Error

  predicate SameMessage(a: Message, b: Message) {
    a.id == b.id && a.external == b.external && a.conversation == b.conversation
  }

  /** One of the two unique keys is taken. */
  predicate Clashes(a: Message, b: Message) {
    a.id == b.id || (a.conversation == b.conversation && a.external == b.external)
  }

  predicate Taken(rows: seq<Row>, m: Message) {
    exists k :: 0 <= k < |rows| && Clashes(rows[k].m, m)
  }

  predicate Known(rows: seq<Row>, m: Message) {
    exists k :: 0 <= k < |rows| && SameMessage(rows[k].m, m)
  }

  function WithGap(rows: seq<Row>, m: Message): (r: seq<Row>)
    ensures |r| == |rows|
  {
    seq(|rows|, k requires 0 <= k < |rows| =>
      if SameMessage(rows[k].m, m) then rows[k].(m := rows[k].m.(gap := true)) else rows[k])
  }

  /** INSERT OR IGNORE, and the gap mark on a message that was there already. */
  function Insert(t: Table, m: Message): Result<Table> {
    if !m.present then Error
    else if Taken(t.rows, m) then
      if !m.gap then Ok(t) else if Known(t.rows, m) then Ok(t.(rows := WithGap(t.rows, m))) else Error
    else if m.conversation !in t.conversations then Error
    else Ok(t.(rows := t.rows + [Row(t.last + 1, m)], last := t.last + 1))
  }

  /** The batch in one transaction: all of it or nothing. */
  function InsertAll(t: Table, batch: seq<Message>): Result<Table>
    decreases |batch|
  {
    if batch == [] then Ok(t)
    else
      var r := InsertAll(t, batch[..|batch| - 1]);
      if r.Error? then Error else Insert(r.value, batch[|batch| - 1])
  }

  // What insertion keeps ----------------------------------------------------------------------------

  ghost predicate Ascending(rows: seq<Row>) {
    forall i, j :: 0 <= i < j < |rows| ==> rows[i].sequence < rows[j].sequence
  }

  ghost predicate KeysUnique(rows: seq<Row>) {
    forall i, j :: 0 <= i < |rows| && 0 <= j < |rows| && i != j ==> !Clashes(rows[i].m, rows[j].m)
  }

  ghost predicate TableOk(t: Table) {
    && Ascending(t.rows) && KeysUnique(t.rows)
    && (forall k :: 0 <= k < |t.rows| ==> t.rows[k].sequence <= t.last && t.rows[k].m.conversation in t.conversations)
  }

  /** The same row later on: only the gap mark may have come. */
  predicate SameRow(earlier: Row, later: Row) {
    later == earlier || later == earlier.(m := earlier.m.(gap := true))
  }

  /** `later` has every row of `earlier` in its place, perhaps with the gap mark added, and new
      rows only above all that were there. */
  ghost predicate Extends(earlier: seq<Row>, last: int, later: seq<Row>) {
    && |earlier| <= |later|
    && (forall k :: 0 <= k < |earlier| ==> SameRow(earlier[k], later[k]))
    && (forall k :: |earlier| <= k < |later| ==> later[k].sequence > last)
  }

  lemma GapKeeps(t: Table, m: Message)
    requires TableOk(t)
    ensures TableOk(t.(rows := WithGap(t.rows, m))) && Extends(t.rows, t.last, WithGap(t.rows, m))
  {
    var rows := WithGap(t.rows, m);
    assert forall k :: 0 <= k < |rows| ==> SameRow(t.rows[k], rows[k]);
  }

  lemma AppendKeeps(t: Table, m: Message)
    requires TableOk(t) && !Taken(t.rows, m) && m.conversation in t.conversations
    ensures TableOk(t.(rows := t.rows + [Row(t.last + 1, m)], last := t.last + 1))
  {
  }

  lemma InsertKeeps(t: Table, m: Message)
    requires TableOk(t) && Insert(t, m).Ok?
    ensures var t' := Insert(t, m).value;
            TableOk(t') && Extends(t.rows, t.last, t'.rows) && t.last <= t'.last && Taken(t'.rows, m)
  {
    var t' := Insert(t, m).value;
    if !Taken(t.rows, m) {
      AppendKeeps(t, m);
      assert t'.rows[|t.rows|].m == m;
    } else {
      GapKeeps(t, m);
      var k :| 0 <= k < |t.rows| && Clashes(t.rows[k].m, m);
      assert Clashes(t'.rows[k].m, m);
    }
  }

  /** A message is accepted exactly when all its identifiers are given and it is either fresh and of a known
      conversation, or clashes and, if it is to mark a gap, is there itself.  A fresh one is stored as it is under
      the next sequence. */
  lemma InsertedExactly(t: Table, m: Message)
    ensures Insert(t, m).Ok? <==>
            && m.present
            && (if exists k :: 0 <= k < |t.rows| && Clashes(t.rows[k].m, m)
                then m.gap ==> exists k :: 0 <= k < |t.rows| && SameMessage(t.rows[k].m, m)
                else m.conversation in t.conversations)
    ensures m.present && m.conversation in t.conversations && (forall k :: 0 <= k < |t.rows| ==> !Clashes(t.rows[k].m, m)) ==>
              Insert(t, m) == Ok(Table(t.rows + [Row(t.last + 1, m)], t.last + 1, t.conversations))
  {
  }

  /** Nothing in the batch clashes with the table or with another message of the batch. */
  ghost predicate AllFresh(t: Table, batch: seq<Message>) {
    && (forall i :: 0 <= i < |batch| ==> batch[i].present && batch[i].conversation in t.conversations)
    && (forall i, k :: 0 <= i < |batch| && 0 <= k < |t.rows| ==> !Clashes(t.rows[k].m, batch[i]))
    && (forall i, j :: 0 <= i < j < |batch| ==> !Clashes(batch[i], batch[j]))
  }

  /** A batch of fresh messages is stored whole: each as it is, in order, under consecutive sequences. */
  lemma {:induction false} FreshBatchIsStored(t: Table, batch: seq<Message>)
    requires AllFresh(t, batch)
    ensures InsertAll(t, batch).Ok?
    ensures var t' := InsertAll(t, batch).value;
            && t'.last == t.last + |batch| && t'.conversations == t.conversations
            && |t'.rows| == |t.rows| + |batch| && t.rows <= t'.rows
            && forall i :: 0 <= i < |batch| ==> t'.rows[|t.rows| + i] == Row(t.last + 1 + i, batch[i])
    decreases |batch|
  {
    if batch != [] {
      var init, m := batch[..|batch| - 1], batch[|batch| - 1];
      assert AllFresh(t, init);
      FreshBatchIsStored(t, init);
      var u := InsertAll(t, init).value;
      forall k | 0 <= k < |u.rows| ensures !Clashes(u.rows[k].m, m) {
        if k >= |t.rows| { assert u.rows[|t.rows| + (k - |t.rows|)].m == init[k - |t.rows|] == batch[k - |t.rows|]; }
      }
      InsertedExactly(u, m);
    }
  }

  /** A batch extends the table by new rows above everything, or fails and leaves it alone. */
  lemma {:induction false} InsertAllKeeps(t: Table, batch: seq<Message>)
    requires TableOk(t) && InsertAll(t, batch).Ok?
    ensures var t' := InsertAll(t, batch).value;
            TableOk(t') && Extends(t.rows, t.last, t'.rows) && t.last <= t'.last
    decreases |batch|
  {
    if batch != [] {
      InsertAllKeeps(t, batch[..|batch| - 1]);
      InsertKeeps(InsertAll(t, batch[..|batch| - 1]).value, batch[|batch| - 1]);
    }
  }

  /** The table has taken in all there is in `m`. */
  ghost predicate Settled(rows: seq<Row>, m: Message) {
    && m.present && Taken(rows, m)
    && (m.gap ==> exists k :: 0 <= k < |rows| && SameMessage(rows[k].m, m) && rows[k].m.gap)
  }

  /** Inserting what is settled changes nothing. */
  lemma SettledIsNoOp(t: Table, m: Message)
    requires TableOk(t) && Settled(t.rows, m)
    ensures Insert(t, m) == Ok(t)
  {
    if m.gap {
      var k :| 0 <= k < |t.rows| && SameMessage(t.rows[k].m, m) && t.rows[k].m.gap;
      assert Known(t.rows, m);
      assert WithGap(t.rows, m) == t.rows;
    }
  }

  lemma InsertSettles(t: Table, m: Message)
    requires TableOk(t) && Insert(t, m).Ok?
    ensures Settled(Insert(t, m).value.rows, m)
  {
    InsertKeeps(t, m);
    var rows := Insert(t, m).value.rows;
    if m.gap {
      if Taken(t.rows, m) {
        var k :| 0 <= k < |t.rows| && SameMessage(t.rows[k].m, m);
        assert SameMessage(rows[k].m, m) && rows[k].m.gap;
      } else {
        assert rows[|t.rows|].m == m;
      }
    }
  }

  lemma SettledStays(rows: seq<Row>, last: int, rows': seq<Row>, m: Message)
    requires Settled(rows, m) && Extends(rows, last, rows')
    ensures Settled(rows', m)
  {
    var k :| 0 <= k < |rows| && Clashes(rows[k].m, m);
    assert SameRow(rows[k], rows'[k]) && Clashes(rows'[k].m, m);
    if m.gap {
      var j :| 0 <= j < |rows| && SameMessage(rows[j].m, m) && rows[j].m.gap;
      assert SameRow(rows[j], rows'[j]) && SameMessage(rows'[j].m, m) && rows'[j].m.gap;
    }
  }

  lemma {:induction false} BatchSettles(t: Table, batch: seq<Message>, i: nat)
    requires TableOk(t) && InsertAll(t, batch).Ok? && i < |batch|
    ensures Settled(InsertAll(t, batch).value.rows, batch[i])
    decreases |batch|
  {
    var n := |batch| - 1;
    var r := InsertAll(t, batch[..n]).value;
    InsertAllKeeps(t, batch[..n]);
    if i < n {
      BatchSettles(t, batch[..n], i);
      InsertKeeps(r, batch[n]);
      SettledStays(r.rows, r.last, InsertAll(t, batch).value.rows, batch[i]);
    } else {
      InsertSettles(r, batch[n]);
    }
  }

  lemma {:induction false} SettledBatch(t: Table, batch: seq<Message>)
    requires TableOk(t) && forall i :: 0 <= i < |batch| ==> Settled(t.rows, batch[i])
    ensures InsertAll(t, batch) == Ok(t)
    decreases |batch|
  {
    if batch != [] {
      SettledBatch(t, batch[..|batch| - 1]);
      SettledIsNoOp(t, batch[|batch| - 1]);
    }
  }

  /** Adding a batch again, as ingest does after losing its cursor, succeeds and changes nothing. */
  lemma AddingAgainChangesNothing(t: Table, batch: seq<Message>)
    requires TableOk(t) && InsertAll(t, batch).Ok?
    ensures var t' := InsertAll(t, batch).value; InsertAll(t', batch) == Ok(t')
  {
    var t' := InsertAll(t, batch).value;
    InsertAllKeeps(t, batch);
    forall i | 0 <= i < |batch| ensures Settled(t'.rows, batch[i]) {
      BatchSettles(t, batch, i);
    }
    SettledBatch(t', batch);
  }

  // Listing --------------------------------------------------------------------------------------------

  datatype Query = Query(after: int, anyConversation: bool, conversation: Id, unbounded: bool, before: Instant, latest: bool, limit: int)

  /** The conditions of the query's WHERE clause. */
  predicate Wanted(q: Query, r: Row) {
    r.sequence > q.after && (q.anyConversation || r.m.conversation == q.conversation) && (q.unbounded || TextBefore(r.m.sentAt, q.before))
  }

  /** The rows that the conditions select, in ascending order. */
  function Selected(rows: seq<Row>, q: Query): seq<Row> {
    if rows == [] then []
    else Selected(rows[..|rows| - 1], q) + (if Wanted(q, rows[|rows| - 1]) then [rows[|rows| - 1]] else [])
  }

  function Limit(q: Query): (n: nat)
    ensures 1 <= n <= 1000
  {
    if q.limit <= 0 || q.limit > 1000 then 100 else q.limit
  }

  function Reversed<T>(s: seq<T>): seq<T> {
    seq(|s|, k requires 0 <= k < |s| => s[|s| - 1 - k])
  }

  function Take<T>(s: seq<T>, n: nat): seq<T> {
    if |s| <= n then s else s[..n]
  }

  /** `ListMessages`: newest first, cut, and turned round again when the latest are asked for. */
  function List(rows: seq<Row>, q: Query): seq<Row> {
    if q.latest then Reversed(Take(Reversed(Selected(rows, q)), Limit(q))) else Take(Selected(rows, q), Limit(q))
  }

  lemma {:induction false} LastOfReversed<T>(s: seq<T>, n: nat)
    ensures Reversed(Take(Reversed(s), n)) == if |s| <= n then s else s[|s| - n..]
  {
    var cut := Take(Reversed(s), n);
    forall k | 0 <= k < |cut| ensures Reversed(cut)[k] == s[|s| - |cut| + k] {
      assert Reversed(cut)[k] == cut[|cut| - 1 - k];
      assert cut[|cut| - 1 - k] == Reversed(s)[|cut| - 1 - k];
    }
  }

  /** The selection is exactly the wanted rows, in table order. */
  lemma {:induction false} SelectedExactly(rows: seq<Row>, q: Query, r: Row)
    requires Ascending(rows)
    ensures r in Selected(rows, q) <==>
            && r in rows && r.sequence > q.after
            && (!q.anyConversation ==> r.m.conversation == q.conversation) && (!q.unbounded ==> TextBefore(r.m.sentAt, q.before))
    ensures Ascending(Selected(rows, q))
  {
    if rows != [] {
      var init := rows[..|rows| - 1];
      SelectedExactly(init, q, r);
      forall k | 0 <= k < |Selected(init, q)| ensures Selected(init, q)[k].sequence < rows[|rows| - 1].sequence {
        SelectedExactly(init, q, Selected(init, q)[k]);
      }
      assert rows == init + [rows[|rows| - 1]];
    }
  }

  /** A listing is the first, or with `latest` the last, of the rows that the conditions select: as many as
      asked for between 1 and 1000, otherwise 100. */
  lemma ListIsExact(rows: seq<Row>, q: Query)
    ensures var all, n := Selected(rows, q), if 1 <= q.limit <= 1000 then q.limit else 100;
            List(rows, q) == if |all| <= n then all else if q.latest then all[|all| - n..] else all[..n]
  {
    LastOfReversed(Selected(rows, q), Limit(q));
  }

  /** A listing for one conversation holds its rows only, one with `before` earlier rows only, and all lie above
      the cursor, in ascending order. */
  lemma ListedRows(rows: seq<Row>, q: Query, k: nat)
    requires Ascending(rows) && k < |List(rows, q)|
    ensures var r := List(rows, q)[k];
            && r in rows && r.sequence > q.after
            && (!q.anyConversation ==> r.m.conversation == q.conversation) && (!q.unbounded ==> TextBefore(r.m.sentAt, q.before))
    ensures Ascending(List(rows, q))
  {
    ListIsExact(rows, q);
    SelectedExactly(rows, q, List(rows, q)[k]);
  }

  /** Of the rows that the other conditions select, `before` takes the earlier ones: for each row exactly when it
      and the bound lie in different seconds or neither fraction is the other one cut short. */
  lemma BeforeIsExact(rows: seq<Row>, q: Query, r: Row)
    requires Ascending(rows) && r in rows && r.sequence > q.after && !q.unbounded
    requires !q.anyConversation ==> r.m.conversation == q.conversation
    ensures (r in Selected(rows, q) <==> Earlier(r.m.sentAt, q.before)) <==>
            || r.m.sentAt.second != q.before.second
            || (!Cut(r.m.sentAt.fraction, q.before.fraction) && !Cut(q.before.fraction, r.m.sentAt.fraction))
  {
    SelectedExactly(rows, q, r);
    TextOrderExactly(r.m.sentAt, q.before);
  }

  // The store object ---------------------------------------------------------------------------------------

  class Store {
    var table: Table

    constructor (conversations: set<Id>)
      ensures TableOk(table) && table == Table([], 0, conversations)
    {
      table := Table([], 0, conversations);
    }

    /** `AddMessages`: a transaction that is committed or dropped. */
    method AddMessages(batch: seq<Message>, commitOk: bool) returns (inserted: seq<Row>, ok: bool)
      requires TableOk(table)
      modifies this
      ensures TableOk(table) && Extends(old(table).rows, old(table).last, table.rows)
      ensures ok <==> commitOk && InsertAll(old(table), batch).Ok?
      ensures table == if ok then InsertAll(old(table), batch).value else old(table)
      ensures ok ==> Reported(old(table), table, batch, inserted)
      ensures AllFresh(old(table), batch) ==> ok == commitOk
      ensures ok && AllFresh(old(table), batch) ==>
                && |inserted| == |batch|
                && forall k :: 0 <= k < |batch| ==> table.rows[|old(table).rows| + k] == Row(old(table).last + 1 + k, batch[k])
    {
      if AllFresh(table, batch) { FreshBatchIsStored(table, batch); }
      var tx;
      tx, inserted, ok := Transact(batch);
      if ok {
        InsertAllKeeps(table, batch);
      }
      ok := ok && commitOk;
      if ok {
        table := tx;
      }
    }

    /** The statements of the transaction. */
    method Transact(batch: seq<Message>) returns (tx: Table, inserted: seq<Row>, ok: bool)
      requires TableOk(table)
      ensures ok <==> InsertAll(table, batch).Ok?
      ensures ok ==> InsertAll(table, batch) == Ok(tx) && Reported(table, tx, batch, inserted)
    {
      tx := table;
      inserted := [];
      for i := 0 to |batch|
        invariant InsertAll(table, batch[..i]) == Ok(tx) && Reported(table, tx, batch, inserted)
      {
        assert batch[..i + 1][..i] == batch[..i];
        var r := Insert(tx, batch[i]);
        if r.Error? {
          FailsEarly(table, batch, i + 1);
          return tx, inserted, false;
        }
        RowReported(table, tx, batch, inserted, batch[i]);
        if |r.value.rows| > |tx.rows| {
          inserted := inserted + [r.value.rows[|tx.rows|]];
        }
        tx := r.value;
      }
      assert batch[..|batch|] == batch;
      ok := true;
    }
  }

  /** `inserted` are the rows that the table has more than before, each a message of the batch as it was given;
      a later message of the batch may have marked its gap. */
  ghost predicate Reported(before: Table, after: Table, batch: seq<Message>, inserted: seq<Row>) {
    && |after.rows| == |before.rows| + |inserted|
    && forall k :: 0 <= k < |inserted| ==> inserted[k].m in batch && SameRow(inserted[k], after.rows[|before.rows| + k])
  }

  lemma RowReported(before: Table, t: Table, batch: seq<Message>, inserted: seq<Row>, m: Message)
    requires Insert(t, m).Ok? && Reported(before, t, batch, inserted) && m in batch
    ensures var t' := Insert(t, m).value;
            Reported(before, t', batch, if |t'.rows| > |t.rows| then inserted + [t'.rows[|t.rows|]] else inserted)
  {
    var t' := Insert(t, m).value;
    if |t'.rows| > |t.rows| {
      assert t'.rows == t.rows + [Row(t.last + 1, m)];
    } else {
      forall k | 0 <= k < |inserted| ensures SameRow(inserted[k], t'.rows[|before.rows| + k]) {
        StillTheRow(t, m, inserted[k], |before.rows| + k);
      }
    }
  }

  lemma StillTheRow(t: Table, m: Message, r: Row, k: nat)
    requires Insert(t, m).Ok? && |Insert(t, m).value.rows| == |t.rows| && k < |t.rows| && SameRow(r, t.rows[k])
    ensures SameRow(r, Insert(t, m).value.rows[k])
  {
  }

  lemma {:induction false} FailsEarly(t: Table, batch: seq<Message>, i: nat)
    requires i <= |batch| && InsertAll(t, batch[..i]).Error?
    ensures InsertAll(t, batch).Error?
    decreases |batch|
  {
    if i == |batch| {
      assert batch[..i] == batch;
    } else {
      assert batch[..|batch| - 1][..i] == batch[..i];
      FailsEarly(t, batch[..|batch| - 1], i);
    }
  }
}
