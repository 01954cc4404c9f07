/** Following the message table by cursor while batches are added: the client polls for rows above
    its cursor, writes them one by one and moves the cursor along. */
module MessageWatch {
  import opened TimeText
  import opened MessageStore

  /** `pending` is what is left to write of the last poll's answer. */
  datatype State = State(table: Table, start: int, cursor: int, pending: seq<Row>, emitted: seq<Row>)

  datatype Event =
    | Add(batch: seq<Message>)
    | NewConversations(ids: set<Id>)
    | Poll(limit: int)
    | Emit

  /** What one poll asks for. */
  function Above(cursor: int, limit: int): Query {
    Query(cursor, true, 0, true, Instant(0, NoFraction), false, limit)
  }

  function Max(a: int, b: int): int {
    if a < b then b else a
  }

  function Step(s: State, e: Event): State {
    match e
    case Add(batch) => if InsertAll(s.table, batch).Ok? then s.(table := InsertAll(s.table, batch).value) else s
    case NewConversations(ids) => s.(table := s.table.(conversations := s.table.conversations + ids))
    case Poll(limit) => if s.pending == [] then s.(pending := List(s.table.rows, Above(s.cursor, limit))) else s
    case Emit =>
      if s.pending == [] then s
      else s.(emitted := s.emitted + [s.pending[0]], cursor := Max(s.cursor, s.pending[0].sequence), pending := s.pending[1..])
  }

  function Run(s: State, es: seq<Event>): State
    decreases |es|
  {
    if es == [] then s else Run(Step(s, es[0]), es[1..])
  }

  /** How many rows lie at or below the cursor. */
  function Position(rows: seq<Row>, cursor: int): (n: nat)
    ensures n <= |rows|
  {
    if rows == [] then 0
    else if rows[|rows| - 1].sequence > cursor then Position(rows[..|rows| - 1], cursor)
    else |rows|
  }

  lemma {:induction false} PositionSplits(rows: seq<Row>, cursor: int)
    requires Ascending(rows)
    ensures forall k :: 0 <= k < |rows| ==> (rows[k].sequence > cursor <==> k >= Position(rows, cursor))
  {
    if rows != [] {
      PositionSplits(rows[..|rows| - 1], cursor);
    }
  }

  lemma SuffixGrows(init: seq<Row>, last: Row, n: nat)
    requires n <= |init|
    ensures (init + [last])[n..] == init[n..] + [last]
  {
  }

  lemma {:induction false} NothingAbove(rows: seq<Row>, cursor: int, limit: int)
    requires forall k :: 0 <= k < |rows| ==> rows[k].sequence <= cursor
    ensures Selected(rows, Above(cursor, limit)) == []
  {
    if rows != [] {
      NothingAbove(rows[..|rows| - 1], cursor, limit);
    }
  }

  /** What lies above the cursor is the rest of the table. */
  lemma {:induction false} AboveIsSuffix(rows: seq<Row>, cursor: int, limit: int)
    requires Ascending(rows)
    ensures Selected(rows, Above(cursor, limit)) == rows[Position(rows, cursor)..]
  {
    if rows != [] {
      var init, last := rows[..|rows| - 1], rows[|rows| - 1];
      if last.sequence > cursor {
        AboveIsSuffix(init, cursor, limit);
        assert rows == init + [last];
        SuffixGrows(init, last, Position(init, cursor));
      } else {
        NothingAbove(rows, cursor, limit);
      }
    }
  }

  /** The rows read so far are the rows from `start` on, without gap or repetition. */
  ghost predicate Follows(rows: seq<Row>, start: int, seen: seq<Row>) {
    && Position(rows, start) + |seen| <= |rows|
    && (forall k :: 0 <= k < |seen| ==> SameRow(seen[k], rows[Position(rows, start) + k]))
  }

  ghost predicate Inv(s: State) {
    && TableOk(s.table)
    && Follows(s.table.rows, s.start, s.emitted + s.pending)
    && s.cursor == if s.emitted == [] then s.start else s.emitted[|s.emitted| - 1].sequence
  }

  lemma ExtendsFollows(rows: seq<Row>, last: int, rows': seq<Row>, start: int, seen: seq<Row>)
    requires Ascending(rows) && Ascending(rows') && Extends(rows, last, rows') && Follows(rows, start, seen)
    requires forall k :: 0 <= k < |rows| ==> rows[k].sequence <= last
    ensures Follows(rows', start, seen)
  {
    PositionSplits(rows, start);
    PositionSplits(rows', start);
    var p, p' := Position(rows, start), Position(rows', start);
    if p < |rows| {
      assert SameRow(rows[p], rows'[p]);
      assert p' <= p;
      if p > 0 {
        assert SameRow(rows[p - 1], rows'[p - 1]);
      }
      assert p' == p;
      forall k | 0 <= k < |seen| ensures SameRow(seen[k], rows'[p' + k]) {
        assert SameRow(seen[k], rows[p + k]) && SameRow(rows[p + k], rows'[p + k]);
      }
    } else {
      assert seen == [];
    }
  }

  lemma AddKeeps(s: State, batch: seq<Message>)
    requires Inv(s)
    ensures Inv(Step(s, Add(batch)))
  {
    if InsertAll(s.table, batch).Ok? {
      InsertAllKeeps(s.table, batch);
      ExtendsFollows(s.table.rows, s.table.last, InsertAll(s.table, batch).value.rows, s.start, s.emitted + s.pending);
    }
  }

  lemma PositionIs(rows: seq<Row>, cursor: int, n: nat)
    requires Ascending(rows) && n <= |rows|
    requires n > 0 ==> rows[n - 1].sequence <= cursor
    requires n < |rows| ==> rows[n].sequence > cursor
    ensures Position(rows, cursor) == n
  {
    PositionSplits(rows, cursor);
  }

  /** The cursor stands right behind the last emitted row. */
  lemma CursorPosition(s: State)
    requires Inv(s) && s.pending == []
    ensures Position(s.table.rows, s.cursor) == Position(s.table.rows, s.start) + |s.emitted|
  {
    if s.emitted != [] {
      var rows, n := s.table.rows, Position(s.table.rows, s.start) + |s.emitted|;
      assert s.emitted + s.pending == s.emitted;
      assert SameRow(s.emitted[|s.emitted| - 1], rows[n - 1]);
      PositionIs(rows, s.cursor, n);
    }
  }

  lemma FollowsOn(rows: seq<Row>, start: int, emitted: seq<Row>, more: seq<Row>)
    requires Follows(rows, start, emitted) && more <= rows[Position(rows, start) + |emitted|..]
    ensures Follows(rows, start, emitted + more)
  {
  }

  /** A poll after everything was written continues where the emitted rows end. */
  lemma PollKeeps(s: State, limit: int)
    requires Inv(s) && s.pending == []
    ensures Inv(Step(s, Poll(limit)))
  {
    CursorPosition(s);
    AboveIsSuffix(s.table.rows, s.cursor, limit);
    assert s.emitted + s.pending == s.emitted;
    FollowsOn(s.table.rows, s.start, s.emitted, List(s.table.rows, Above(s.cursor, limit)));
  }

  lemma EmitKeeps(s: State)
    requires Inv(s) && s.pending != []
    ensures Inv(Step(s, Emit))
  {
    var rows, p := s.table.rows, Position(s.table.rows, s.start);
    var seen := s.emitted + s.pending;
    assert s.emitted + [s.pending[0]] + s.pending[1..] == seen;
    PositionSplits(rows, s.start);
    assert SameRow(seen[|s.emitted|], rows[p + |s.emitted|]);
    if s.emitted != [] {
      assert seen[|s.emitted| - 1] == s.emitted[|s.emitted| - 1];
      assert SameRow(seen[|s.emitted| - 1], rows[p + |s.emitted| - 1]);
    }
  }

  lemma StepKeeps(s: State, e: Event)
    requires Inv(s)
    ensures Inv(Step(s, e)) && Step(s, e).start == s.start
  {
    match e
    case Add(batch) => AddKeeps(s, batch);
    case NewConversations(ids) =>
    case Poll(limit) => if s.pending == [] { PollKeeps(s, limit); }
    case Emit => if s.pending != [] { EmitKeeps(s); }
  }

  lemma {:induction false} RunKeeps(s: State, es: seq<Event>)
    requires Inv(s)
    ensures Inv(Run(s, es)) && Run(s, es).start == s.start
    decreases |es|
  {
    if es != [] {
      StepKeeps(s, es[0]);
      RunKeeps(Step(s, es[0]), es[1..]);
    }
  }

  /** Under every interleaving of polls, writes and added batches, what was emitted is exactly an
      initial part of the rows above the start cursor, in sequence order: nothing is skipped,
      repeated or out of order. */
  lemma EmittedIsPrefix(table: Table, start: int, es: seq<Event>)
    requires TableOk(table)
    ensures var t := Run(State(table, start, start, [], []), es);
            var above := Selected(t.table.rows, Above(start, 0));
            && |t.emitted| <= |above|
            && (forall k :: 0 <= k < |t.emitted| ==> SameRow(t.emitted[k], above[k]))
            && Ascending(t.emitted)
  {
    var s := State(table, start, start, [], []);
    RunKeeps(s, es);
    PrefixOf(Run(s, es));
  }

  /** A poll comes back empty exactly when everything above the start cursor has been emitted. */
  lemma CaughtUp(s: State, limit: int)
    requires Inv(s) && s.pending == []
    ensures Step(s, Poll(limit)).pending == [] <==>
            |Selected(s.table.rows, Above(s.start, 0))| == |s.emitted|
  {
    CursorPosition(s);
    AboveIsSuffix(s.table.rows, s.start, 0);
    AboveIsSuffix(s.table.rows, s.cursor, limit);
  }

  /** One round of following: what ingest adds in the meantime, the poll's limit, and how many
      writes succeed. */
  datatype Round = Round(batch: seq<Message>, commitOk: bool, limit: int, written: nat)

  /** `watch --follow` on a store that others add to. */
  class Follower {
    const store: Store
    const start: int
    var cursor: int
    var emitted: seq<Row>

    /** What was emitted is what the table has from the start cursor on. */
    ghost predicate Valid()
      reads this, store
    {
      Inv(State(store.table, start, cursor, [], emitted))
    }

    constructor (store: Store, start: int)
      requires TableOk(store.table)
      ensures Valid() && this.store == store && this.start == start && cursor == start && emitted == []
    {
      this.store, this.start, cursor, emitted := store, start, start, [];
    }

    /** The loop over one answer; a write that fails ends the command after `written` rows. */
    method WriteOut(output: seq<Row>, written: nat) returns (ok: bool)
      requires Ascending(output) && forall k :: 0 <= k < |output| ==> output[k].sequence > cursor
      modifies this
      ensures ok <==> written >= |output|
      ensures emitted == old(emitted) + Take(output, written)
      ensures cursor == if Take(output, written) == [] then old(cursor) else Take(output, written)[|Take(output, written)| - 1].sequence
    {
      for i := 0 to |output|
        invariant i <= written && emitted == old(emitted) + output[..i]
        invariant cursor == if i == 0 then old(cursor) else output[i - 1].sequence
      {
        if i == written {
          return false;
        }
        emitted := emitted + [output[i]];
        if output[i].sequence > cursor {
          cursor := output[i].sequence;
        }
      }
      assert output[..|output|] == output;
      ok := true;
    }

    /** One poll and its writes. */
    method PollAndWrite(limit: int, written: nat) returns (ok: bool)
      requires Valid()
      modifies this
      ensures Valid() && old(emitted) <= emitted
      ensures ok && emitted == old(emitted) ==> |Selected(store.table.rows, Above(start, 0))| == |emitted|
    {
      var output := List(store.table.rows, Above(cursor, limit));
      Answers(State(store.table, start, cursor, [], emitted), limit, written);
      CaughtUp(State(store.table, start, cursor, [], emitted), limit);
      ok := WriteOut(output, written);
    }

    /** The loop of the command: rows are added, polled for and written out, round after round, until
        a write fails.  At every point what was emitted is an initial part of what lies above the
        start cursor; a round that writes everything and brings nothing means that it is all. */
    method Follow(rounds: seq<Round>) returns (ok: bool)
      requires Valid()
      modifies this, store
      ensures Valid() && old(emitted) <= emitted && TableOk(store.table)
      ensures var above := Selected(store.table.rows, Above(start, 0));
              |emitted| <= |above| && forall k :: 0 <= k < |emitted| ==> SameRow(emitted[k], above[k])
    {
      ok := true;
      var i := 0;
      while i < |rounds| && ok
        invariant 0 <= i <= |rounds| && Valid() && old(emitted) <= emitted
      {
        Ingested(rounds[i].batch, rounds[i].commitOk);
        ok := PollAndWrite(rounds[i].limit, rounds[i].written);
        i := i + 1;
      }
      PrefixOf(State(store.table, start, cursor, [], emitted));
    }

    /** Others add a batch to the store. */
    method Ingested(batch: seq<Message>, commitOk: bool)
      requires Valid()
      modifies store
      ensures Valid()
    {
      AddKeeps(State(store.table, start, cursor, [], emitted), batch);
      var _, _ := store.AddMessages(batch, commitOk);
    }
  }

  /** A poll answers with the first rows above the cursor. */
  lemma PollIsFirst(rows: seq<Row>, cursor: int, limit: int)
    requires Ascending(rows)
    ensures var output := List(rows, Above(cursor, limit));
            && output <= rows[Position(rows, cursor)..]
            && Ascending(output) && forall k :: 0 <= k < |output| ==> output[k].sequence > cursor
  {
    AboveIsSuffix(rows, cursor, limit);
    PositionSplits(rows, cursor);
  }

  /** After everything was written those are the rows right behind the emitted ones. */
  lemma AnswerFollows(s: State, limit: int)
    requires Inv(s) && s.pending == []
    ensures var output := List(s.table.rows, Above(s.cursor, limit));
            && Ascending(output) && (forall k :: 0 <= k < |output| ==> output[k].sequence > s.cursor)
            && output <= s.table.rows[Position(s.table.rows, s.start) + |s.emitted|..]
            && Follows(s.table.rows, s.start, s.emitted)
  {
    assert s.emitted + s.pending == s.emitted;
    CursorPosition(s);
    PollIsFirst(s.table.rows, s.cursor, limit);
  }

  /** Where writing the first part of such rows leads. */
  lemma PartWritten(s: State, out: seq<Row>)
    requires Inv(s) && s.pending == [] && Follows(s.table.rows, s.start, s.emitted)
    requires out <= s.table.rows[Position(s.table.rows, s.start) + |s.emitted|..]
    ensures Inv(s.(emitted := s.emitted + out, cursor := if out == [] then s.cursor else out[|out| - 1].sequence))
  {
    FollowsOn(s.table.rows, s.start, s.emitted, out);
    assert s.emitted + out + [] == s.emitted + out;
    if out == [] {
      assert s.emitted + out == s.emitted;
    }
  }

  lemma Answers(s: State, limit: int, written: nat)
    requires Inv(s) && s.pending == []
    ensures var output := List(s.table.rows, Above(s.cursor, limit));
            var out := Take(output, written);
            && Ascending(output) && (forall k :: 0 <= k < |output| ==> output[k].sequence > s.cursor)
            && Inv(s.(emitted := s.emitted + out, cursor := if out == [] then s.cursor else out[|out| - 1].sequence))
  {
    AnswerFollows(s, limit);
    PartWritten(s, Take(List(s.table.rows, Above(s.cursor, limit)), written));
  }

  lemma FollowsAbove(rows: seq<Row>, start: int, seen: seq<Row>, more: seq<Row>)
    requires Ascending(rows) && Follows(rows, start, seen + more)
    ensures Follows(rows, start, seen)
    ensures var above := rows[Position(rows, start)..];
            |seen| <= |above| && forall k :: 0 <= k < |seen| ==> SameRow(seen[k], above[k])
  {
    assert forall k :: 0 <= k < |seen| ==> (seen + more)[k] == seen[k];
  }

  lemma FollowsAscending(rows: seq<Row>, start: int, seen: seq<Row>)
    requires Ascending(rows) && Follows(rows, start, seen)
    ensures Ascending(seen)
  {
    var p := Position(rows, start);
    forall i, j | 0 <= i < j < |seen| ensures seen[i].sequence < seen[j].sequence {
      assert SameRow(seen[i], rows[p + i]) && SameRow(seen[j], rows[p + j]);
    }
  }

  lemma PrefixOf(s: State)
    requires Inv(s)
    ensures var above := Selected(s.table.rows, Above(s.start, 0));
            |s.emitted| <= |above| && forall k :: 0 <= k < |s.emitted| ==> SameRow(s.emitted[k], above[k])
    ensures Ascending(s.emitted)
  {
    AboveIsSuffix(s.table.rows, s.start, 0);
    FollowsAbove(s.table.rows, s.start, s.emitted, s.pending);
    FollowsAscending(s.table.rows, s.start, s.emitted);
  }
}
