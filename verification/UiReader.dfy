/** The index object and the ingest step, as the code runs them. */
module UiReader {
  import opened Common
  import opened UiIndex
  import opened UiRuns

  datatype Progress = Progress(ix: Index, p: Pass)

  /** A pass over the visible messages, undisturbed. */
  function PassOver(ix: Index, p: Pass, visible: seq<Visible>): Progress {
    if visible == [] then Progress(ix, p)
    else
      var done := PassOver(ix, p, visible[..|visible| - 1]);
      Turn(done.ix, done.p, visible[|visible| - 1])
  }

  /** Both halves of one turn of the loop. */
  function Turn(ix: Index, p: Pass, v: Visible): Progress {
    if !v.shown then Progress(ix, p)
    else
      var ix' := Leased(ix, p, v);
      Progress(Assigned(ix', IdOf(p, v)), Listed(ix', Counted(p, v)))
  }

  lemma TurnKeeps(ix: Index, p: Pass, v: Visible)
    requires Numbered(ix) && PassOk(ix, p) && p.pending.None?
    ensures var done := Turn(ix, p, v);
            Numbered(done.ix) && Stable(ix, done.ix) && PassOk(done.ix, done.p) && done.p.pending.None?
  {
    if v.shown {
      var ix' := Leased(ix, p, v);
      CountedIsOk(ix, p, v);
      AssignedIsNumbered(ix', IdOf(p, v));
      ListedIsOk(ix', Counted(p, v));
    }
  }

  lemma {:induction false} PassOverKeeps(ix: Index, p: Pass, visible: seq<Visible>)
    requires Numbered(ix) && PassOk(ix, p) && p.pending.None?
    ensures var done := PassOver(ix, p, visible);
            Numbered(done.ix) && Stable(ix, done.ix) && PassOk(done.ix, done.p) && done.p.pending.None?
  {
    if visible != [] {
      var init := visible[..|visible| - 1];
      PassOverKeeps(ix, p, init);
      TurnKeeps(PassOver(ix, p, init).ix, PassOver(ix, p, init).p, visible[|visible| - 1]);
    }
  }

  /** How many of the visible entries are shown, in all and with a given signature. */
  function Shown(visible: seq<Visible>): nat {
    if visible == [] then 0 else Shown(visible[..|visible| - 1]) + (if visible[|visible| - 1].shown then 1 else 0)
  }

  function ShownAs(visible: seq<Visible>, signature: Signature): nat {
    if visible == [] then 0
    else
      var v := visible[|visible| - 1];
      ShownAs(visible[..|visible| - 1], signature) + (if v.shown && v.signature == signature then 1 else 0)
  }

  /** The identifier of entry `i`: it is the n-th one shown with its signature. */
  function IdAt(conversation: ConversationId, visible: seq<Visible>, i: nat): MessageId
    requires i < |visible|
  {
    MessageId(conversation, visible[i].signature, ShownAs(visible[..i + 1], visible[i].signature))
  }

  /** Entry `i`, if shown, is listed under its identifier in its place, and its surface can be opened for
      two minutes. */
  ghost predicate Lists(conversation: ConversationId, visible: seq<Visible>, observedAt: Time, batch: nat,
                        result: seq<Item>, surfaces: map<Ref, Lease>, i: nat)
    requires i < |visible|
  {
    visible[i].shown ==>
      && Shown(visible[..i]) < |result| && result[Shown(visible[..i])].id == IdAt(conversation, visible, i)
      && (visible[i].surface ==>
            var r := Ref(IdAt(conversation, visible, i), visible[i].target, batch);
            r in surfaces && surfaces[r] == Lease(conversation, observedAt + 120))
  }

  /** A pass lists every entry that is shown, and nothing else. */
  lemma {:induction false} PassListsAll(ix: Index, p: Pass, visible: seq<Visible>)
    requires p.occurrences == map[] && p.pending.None? && p.result == []
    ensures var done := PassOver(ix, p, visible);
            && done.p == p.(occurrences := done.p.occurrences, result := done.p.result) && |done.p.result| == Shown(visible)
            && (forall signature :: Count(done.p.occurrences, signature) == ShownAs(visible, signature))
            && (forall i :: 0 <= i < |visible| ==>
                  Lists(p.conversation, visible, p.observedAt, p.batch, done.p.result, done.ix.surfaces, i))
  {
    if visible != [] {
      var n := |visible| - 1;
      var init := visible[..n];
      var before, done := PassOver(ix, p, init), PassOver(ix, p, visible);
      PassListsAll(ix, p, init);
      forall i | 0 <= i < |visible|
        ensures Lists(p.conversation, visible, p.observedAt, p.batch, done.p.result, done.ix.surfaces, i)
      {
        if i < n {
          assert visible[..i] == init[..i] && visible[..i + 1] == init[..i + 1];
          assert Lists(p.conversation, init, p.observedAt, p.batch, before.p.result, before.ix.surfaces, i);
          Relisted(before.ix, before.p, visible[n], p.conversation, init, visible, i);
        } else {
          assert visible[..n + 1] == visible;
        }
      }
    }
  }

  /** A further turn keeps what is listed. */
  lemma Relisted(ix: Index, p: Pass, v: Visible, conversation: ConversationId, init: seq<Visible>, visible: seq<Visible>, i: nat)
    requires i < |init| && i < |visible| && visible[i] == init[i] && p.conversation == conversation && p.pending.None?
    requires visible[..i] == init[..i] && visible[..i + 1] == init[..i + 1]
    requires Lists(conversation, init, p.observedAt, p.batch, p.result, ix.surfaces, i)
    ensures var done := Turn(ix, p, v);
            Lists(conversation, visible, p.observedAt, p.batch, done.p.result, done.ix.surfaces, i)
  {
  }

  class UIIndex {
    var surfaces: map<Ref, Lease>
    var surfaceBatch: nat
    var sequences: map<MessageId, int>
    var nextSequence: nat

    function Contents(): Index
      reads this
    {
      Index(surfaces, surfaceBatch, sequences, nextSequence)
    }

    constructor ()
      ensures Contents() == Init.ix && Numbered(Contents())
    {
      surfaces, surfaceBatch, sequences, nextSequence := map[], 0, map[], 0;
    }

    /** The deletions at the start of a pass. */
    method DropLeases(conversation: ConversationId, observedAt: Time)
      modifies this`surfaces
      ensures surfaces == Purged(old(surfaces), conversation, observedAt)
      ensures surfaces.Keys <= old(surfaces).Keys
      ensures forall r :: r in old(surfaces) ==>
                (r in surfaces <==> old(surfaces)[r].conversation != conversation && observedAt < old(surfaces)[r].expiresAt)
    {
      var todo := surfaces.Keys;
      while todo != {}
        modifies this`surfaces
        invariant surfaces.Keys <= old(surfaces).Keys && todo <= surfaces.Keys
        invariant forall r :: r in surfaces ==> surfaces[r] == old(surfaces)[r]
        invariant forall r :: r in old(surfaces) && r !in todo ==>
                    (r in surfaces <==> r in Purged(old(surfaces), conversation, observedAt))
        decreases todo
      {
        var r :| r in todo;
        todo := todo - {r};
        if surfaces[r].conversation == conversation || observedAt >= surfaces[r].expiresAt {
          surfaces := surfaces - {r};
        }
      }
    }

    /** `normalizeVisible` before the sort. */
    method NormalizeVisible(conversation: ConversationId, visible: seq<Visible>, observedAt: Time) returns (result: seq<Item>)
      requires Numbered(Contents())
      modifies this
      ensures Numbered(Contents()) && Stable(old(Contents()), Contents())
      ensures var done := PassOver(Opened(old(Contents()), conversation, observedAt), NewPass(old(Contents()), conversation, observedAt), visible);
              Contents() == done.ix && result == done.p.result && Separate(result) && forall x :: x in result ==> Registered(Contents(), x)
      ensures |result| == Shown(visible)
      ensures surfaceBatch == old(surfaceBatch) + 1
      ensures forall i :: 0 <= i < |visible| ==> Lists(conversation, visible, observedAt, surfaceBatch, result, surfaces, i)
    {
      ghost var ix0, p0 := Opened(Contents(), conversation, observedAt), NewPass(Contents(), conversation, observedAt);
      surfaceBatch := surfaceBatch + 1;
      DropLeases(conversation, observedAt);
      ghost var occurrences;
      result, occurrences := Traverse(conversation, visible, observedAt, surfaceBatch);
      PassOverKeeps(ix0, p0, visible);
      PassListsAll(ix0, p0, visible);
      PassIsSeparate(Contents(), PassOver(ix0, p0, visible).p);
      assert forall k :: 0 <= k < |result| ==> Entered(Contents(), PassOver(ix0, p0, visible).p, result[k]);
    }

    /** The loop of the pass. */
    method Traverse(conversation: ConversationId, visible: seq<Visible>, observedAt: Time, batch: nat)
      returns (result: seq<Item>, ghost seen: map<Signature, nat>)
      modifies this`surfaces, this`sequences, this`nextSequence
      ensures PassOver(old(Contents()), Pass(conversation, batch, observedAt, map[], None, []), visible) ==
              Progress(Contents(), Pass(conversation, batch, observedAt, seen, None, result))
    {
      ghost var ix0, p0 := Contents(), Pass(conversation, batch, observedAt, map[], None, []);
      var occurrences: map<Signature, nat> := map[];
      result := [];
      for i := 0 to |visible|
        invariant PassOver(ix0, p0, visible[..i]) == Progress(Contents(), Pass(conversation, batch, observedAt, occurrences, None, result))
      {
        assert visible[..i + 1][..i] == visible[..i];
        var v := visible[i];
        if v.shown {
          occurrences := occurrences[v.signature := Count(occurrences, v.signature) + 1];
          var id := MessageId(conversation, v.signature, occurrences[v.signature]);
          if v.surface {
            surfaces := surfaces[Ref(id, v.target, batch) := Lease(conversation, observedAt + SurfaceTtl)];
          }
          if id !in sequences {
            nextSequence := nextSequence + 1;
            sequences := sequences[id := nextSequence];
          }
          result := result + [Item(id, sequences[id])];
        }
      }
      assert visible[..|visible|] == visible;
      seen := occurrences;
    }

    /** The selecting loop of `ReadMessages`, over the sorted pass. */
    method Select(sorted: seq<Item>, cursor: int, limit: int) returns (out: seq<Item>)
      ensures var all := After(sorted, cursor); out == if |all| <= Limit(limit) then all else all[..Limit(limit)]
    {
      out := [];
      var n := Limit(limit);
      for i := 0 to |sorted|
        invariant out == After(sorted[..i], cursor) && |out| < n
      {
        assert sorted[..i + 1][..i] == sorted[..i];
        if sorted[i].sequence > cursor {
          out := out + [sorted[i]];
          if |out| == n {
            AfterGrows(sorted, cursor, i + 1);
            return;
          }
        }
      }
      assert sorted[..|sorted|] == sorted;
    }

    /** `ReadMessages` as ingest calls it: what is on the window above the cursor, in order. */
    method ReadMessages(conversation: ConversationId, visible: seq<Visible>, observedAt: Time, cursor: int)
      returns (batch: seq<Item>)
      requires Numbered(Contents())
      modifies this
      ensures Numbered(Contents()) && Stable(old(Contents()), Contents())
      ensures batch == ReadOut(PassOver(Opened(old(Contents()), conversation, observedAt),
                                        NewPass(old(Contents()), conversation, observedAt), visible).p.result, cursor, 1000)
      ensures Ascending(batch) && forall k :: 0 <= k < |batch| ==> Above(Contents(), batch[k], cursor)
      ensures forall i :: 0 <= i < |visible| && visible[i].shown ==>
                Caught(Contents(), IdAt(conversation, visible, i), cursor, batch)
    {
      var result := NormalizeVisible(conversation, visible, observedAt);
      batch := Select(Sorted(result), cursor, 1000);
      AllAbove(Contents(), result, cursor);
      AllCaught(Contents(), conversation, visible, observedAt, surfaceBatch, result, cursor);
    }

    /** `ResolveSurface`: the lease is consumed before anything is checked. */
    method ResolveSurface(r: Ref, now: Time, known: bool) returns (ok: bool)
      modifies this`surfaces
      ensures surfaces == old(surfaces) - {r}
      ensures ok <==> r in old(surfaces) && now < old(surfaces)[r].expiresAt && known
    {
      if r !in surfaces {
        assert surfaces == surfaces - {r};
        return false;
      }
      var lease := surfaces[r];
      surfaces := surfaces - {r};
      ok := now < lease.expiresAt && known;
    }
  }

  lemma {:induction false} AfterGrows(s: seq<Item>, cursor: int, i: nat)
    requires i <= |s|
    ensures After(s[..i], cursor) <= After(s, cursor)
  {
    if i < |s| {
      AfterGrows(s[..|s| - 1], cursor, i);
      assert s[..|s| - 1][..i] == s[..i];
    } else {
      assert s[..i] == s;
    }
  }

  /** A message on the window has its number, and is in the batch unless it is not above the cursor or the batch
      is full. */
  ghost predicate Caught(ix: Index, id: MessageId, cursor: int, batch: seq<Item>) {
    id in ix.sequences && (ix.sequences[id] <= cursor || Item(id, ix.sequences[id]) in batch || |batch| == 1000)
  }

  predicate Above(ix: Index, x: Item, cursor: int) {
    x.sequence > cursor && Registered(ix, x)
  }

  lemma AllAbove(ix: Index, result: seq<Item>, cursor: int)
    requires Separate(result) && forall x :: x in result ==> Registered(ix, x)
    ensures var batch := ReadOut(result, cursor, 1000);
            Ascending(batch) && forall k :: 0 <= k < |batch| ==> Above(ix, batch[k], cursor)
  {
    var batch := ReadOut(result, cursor, 1000);
    ReadIsPrefix(result, cursor, 1000, Item(MessageId(0, 0, 0), 0));
    forall k | 0 <= k < |batch| ensures Above(ix, batch[k], cursor) {
      ReadIsPrefix(result, cursor, 1000, batch[k]);
      assert batch[k] in result;
    }
  }

  /** Numbers are stable, so what was stored is still what the index says. */
  lemma StillStored(ix: Index, ix': Index, stored: seq<Item>, cursor: int)
    requires DeliveredOk(ix, stored, cursor) && Stable(ix, ix')
    ensures DeliveredOk(ix', stored, cursor)
  {
  }

  lemma AllCaught(ix: Index, conversation: ConversationId, visible: seq<Visible>, observedAt: Time, batch: nat,
                  result: seq<Item>, cursor: int)
    requires Separate(result) && forall x :: x in result ==> Registered(ix, x)
    requires forall i :: 0 <= i < |visible| ==> Lists(conversation, visible, observedAt, batch, result, ix.surfaces, i)
    ensures forall i :: 0 <= i < |visible| && visible[i].shown ==>
              Caught(ix, IdAt(conversation, visible, i), cursor, ReadOut(result, cursor, 1000))
  {
    forall i | 0 <= i < |visible| && visible[i].shown
      ensures Caught(ix, IdAt(conversation, visible, i), cursor, ReadOut(result, cursor, 1000))
    {
      assert Lists(conversation, visible, observedAt, batch, result, ix.surfaces, i);
      var x := result[Shown(visible[..i])];
      assert x in result && Registered(ix, x);
      ReadIsPrefix(result, cursor, 1000, x);
    }
  }

  /** Ingest of one runtime: its cursor, its driver's index, and what it has stored. */
  class Ingest {
    const index: UIIndex
    var cursor: int
    var stored: seq<Item>

    /** Everything stored is numbered by the index, ascends, and lies at or below the cursor. */
    ghost predicate Valid()
      reads this, index
    {
      Numbered(index.Contents()) && DeliveredOk(index.Contents(), stored, cursor)
    }

    constructor ()
      ensures Valid() && fresh(index) && cursor == 0 && stored == []
    {
      index := new UIIndex();
      cursor, stored := 0, [];
    }

    /** The loop that finds the highest sequence of a batch. */
    method HighestOf(messages: seq<Item>, from: int) returns (highest: int)
      ensures highest == Highest(messages, from)
    {
      highest := from;
      for i := 0 to |messages|
        invariant highest == Highest(messages[..i], from)
      {
        assert messages[..i + 1][..i] == messages[..i];
        if messages[i].sequence > highest {
          highest := messages[i].sequence;
        }
      }
      assert messages[..|messages|] == messages;
    }

    /** The end of `ingestOnce`: the highest sequence of the batch becomes the cursor once it is
        stored, so the next batch starts above this one. */
    method Commit(messages: seq<Item>, ok: bool)
      requires Valid() && Ascending(messages)
      requires forall k :: 0 <= k < |messages| ==> Above(index.Contents(), messages[k], cursor)
      modifies this
      ensures Valid()
      ensures cursor == (if ok && messages != [] then messages[|messages| - 1].sequence else old(cursor))
      ensures index.Contents() == old(index.Contents())
      ensures stored == if ok then old(stored) + messages else old(stored)
    {
      var highest := HighestOf(messages, cursor);
      HighestIsLast(messages, cursor);
      DeliveredMore(index.Contents(), stored, cursor, messages);
      if ok {
        stored := stored + messages;
        cursor := highest;
      }
    }

    /** `ingestOnce` over one view of the window: pass, sort, select, store.  Whatever was seen and
        whatever failed before, nothing that is stored is stored again. */
    method IngestOnce(conversation: ConversationId, visible: seq<Visible>, observedAt: Time, readOk: bool, storeOk: bool)
      returns (batch: seq<Item>)
      requires Valid()
      modifies this, index
      ensures Valid() && Stable(old(index.Contents()), index.Contents())
      ensures !readOk ==> batch == [] && index.Contents() == old(index.Contents())
      ensures readOk ==> batch == ReadOut(PassOver(Opened(old(index.Contents()), conversation, observedAt),
                                                   NewPass(old(index.Contents()), conversation, observedAt), visible).p.result,
                                          old(cursor), 1000)
      ensures stored == if readOk && storeOk then old(stored) + batch else old(stored)
      ensures cursor == if readOk && storeOk && batch != [] then batch[|batch| - 1].sequence else old(cursor)
      ensures readOk ==> forall i :: 0 <= i < |visible| && visible[i].shown ==>
                Caught(index.Contents(), IdAt(conversation, visible, i), old(cursor), batch)
      ensures forall i, j :: 0 <= i < j < |stored| ==> stored[i].id != stored[j].id
    {
      batch := [];
      if readOk {
        batch := index.ReadMessages(conversation, visible, observedAt, cursor);
        StillStored(old(index.Contents()), index.Contents(), stored, cursor);
        Commit(batch, storeOk);
      }
    }
  }
}
