/** The WeChat driver's index over what the client's window shows: sequence numbers for messages as
    they are first seen, one-shot references to surfaces, and the ingest cursor on top.  A pass over
    the visible messages takes the mutex twice per message, once to lease its surface and once to
    number it, so passes may interleave at every such point. */
module UiIndex {
  import opened Common

  type Time = int
  type ConversationId = nat
  type Signature = nat
  type Thread = nat

  /** Message and surface identifiers are hashes; equal only for equal parts. */
  datatype MessageId = MessageId(conversation: ConversationId, signature: Signature, occurrence: nat)
  datatype Ref = Ref(message: MessageId, target: nat, batch: nat)

  /** `shown`: it has text or a label.  `surface`: kind, label and locator are all there. */
  datatype Visible = Visible(shown: bool, signature: Signature, surface: bool, target: nat)

  datatype Lease = Lease(conversation: ConversationId, expiresAt: Time)

  datatype Index = Index(surfaces: map<Ref, Lease>, surfaceBatch: nat, sequences: map<MessageId, int>, nextSequence: nat)

  datatype Item = Item(id: MessageId, sequence: int)

  /** One `normalizeVisible` under way; `pending` has had its surface leased and no number yet. */
  datatype Pass = Pass(
    conversation: ConversationId, batch: nat, observedAt: Time, occurrences: map<Signature, nat>,
    pending: Option<MessageId>, result: seq<Item>)

  // Two minutes, in seconds.
  const SurfaceTtl := 120

  function Count(occurrences: map<Signature, nat>, signature: Signature): nat {
    if signature in occurrences then occurrences[signature] else 0
  }

  /** The pass begins: a new batch number, and outdated leases are dropped. */
  function Purged(surfaces: map<Ref, Lease>, conversation: ConversationId, observedAt: Time): map<Ref, Lease> {
    map r | r in surfaces && surfaces[r].conversation != conversation && observedAt < surfaces[r].expiresAt :: surfaces[r]
  }

  function Opened(ix: Index, conversation: ConversationId, observedAt: Time): Index {
    ix.(surfaceBatch := ix.surfaceBatch + 1, surfaces := Purged(ix.surfaces, conversation, observedAt))
  }

  function NewPass(ix: Index, conversation: ConversationId, observedAt: Time): Pass {
    Pass(conversation, ix.surfaceBatch + 1, observedAt, map[], None, [])
  }

  function IdOf(p: Pass, v: Visible): MessageId {
    MessageId(p.conversation, v.signature, Count(p.occurrences, v.signature) + 1)
  }

  function RefOf(p: Pass, v: Visible): Ref {
    Ref(IdOf(p, v), v.target, p.batch)
  }

  function SequenceOf(ix: Index, id: MessageId): int {
    if id in ix.sequences then ix.sequences[id] else ix.nextSequence + 1
  }

  /** First half of a turn of the loop: the occurrence is counted and the surface leased. */
  function Leased(ix: Index, p: Pass, v: Visible): Index {
    if v.surface then ix.(surfaces := ix.surfaces[RefOf(p, v) := Lease(p.conversation, p.observedAt + SurfaceTtl)]) else ix
  }

  function Counted(p: Pass, v: Visible): Pass {
    p.(occurrences := p.occurrences[v.signature := Count(p.occurrences, v.signature) + 1], pending := Some(IdOf(p, v)))
  }

  /** Second half: the message keeps its number or gets the next one. */
  function Assigned(ix: Index, id: MessageId): Index {
    if id in ix.sequences then ix
    else ix.(sequences := ix.sequences[id := ix.nextSequence + 1], nextSequence := ix.nextSequence + 1)
  }

  function Listed(ix: Index, p: Pass): Pass
    requires p.pending.Some?
  {
    p.(result := p.result + [Item(p.pending.value, SequenceOf(ix, p.pending.value))], pending := None)
  }

  // Sequences -----------------------------------------------------------------------------------------

  /** Different messages have different sequence numbers, between 1 and `nextSequence`. */
  ghost predicate Numbered(ix: Index) {
    && (forall id :: id in ix.sequences ==> 1 <= ix.sequences[id] <= ix.nextSequence)
    && (forall a, b :: a in ix.sequences && b in ix.sequences && ix.sequences[a] == ix.sequences[b] ==> a == b)
  }

  /** A number once given stays. */
  ghost predicate Stable(before: Index, after: Index) {
    && before.nextSequence <= after.nextSequence
    && (forall id :: id in before.sequences ==> id in after.sequences && after.sequences[id] == before.sequences[id])
    && (forall id :: id in after.sequences && id !in before.sequences ==> after.sequences[id] > before.nextSequence)
  }

  lemma AssignedIsNumbered(ix: Index, id: MessageId)
    requires Numbered(ix)
    ensures Numbered(Assigned(ix, id)) && Stable(ix, Assigned(ix, id))
  {
  }

  /** The pass has each message once, under its number, and the pending one not yet. */
  ghost predicate PassOk(ix: Index, p: Pass) {
    && (forall k :: 0 <= k < |p.result| ==> Entered(ix, p, p.result[k]))
    && (forall i, j :: 0 <= i < j < |p.result| ==> p.result[i].id != p.result[j].id)
    && (p.pending.Some? ==>
          && p.pending.value.occurrence <= Count(p.occurrences, p.pending.value.signature)
          && forall k :: 0 <= k < |p.result| ==> p.result[k].id != p.pending.value)
  }

  predicate Entered(ix: Index, p: Pass, x: Item) {
    && x.id in ix.sequences && ix.sequences[x.id] == x.sequence
    && x.id.occurrence <= Count(p.occurrences, x.id.signature)
  }

  lemma CountedIsOk(ix: Index, p: Pass, v: Visible)
    requires PassOk(ix, p) && p.pending.None?
    ensures PassOk(Leased(ix, p, v), Counted(p, v))
  {
    var q := Counted(p, v);
    assert forall k :: 0 <= k < |q.result| ==> Entered(ix, p, p.result[k]);
  }

  lemma ListedIsOk(ix: Index, p: Pass)
    requires PassOk(ix, p) && p.pending.Some?
    ensures PassOk(Assigned(ix, p.pending.value), Listed(ix, p))
  {
    var ix', q := Assigned(ix, p.pending.value), Listed(ix, p);
    assert forall k :: 0 <= k < |p.result| ==> Entered(ix, p, p.result[k]);
    assert forall k :: 0 <= k < |q.result| ==> Entered(ix', q, q.result[k]);
  }

  lemma StablePass(ix: Index, ix': Index, p: Pass)
    requires PassOk(ix, p) && Stable(ix, ix')
    ensures PassOk(ix', p)
  {
    assert forall k :: 0 <= k < |p.result| ==> Entered(ix, p, p.result[k]);
  }

  // Reading ---------------------------------------------------------------------------------------------

  function Insert(s: seq<Item>, x: Item): seq<Item> {
    if s == [] || s[|s| - 1].sequence <= x.sequence then s + [x] else Insert(s[..|s| - 1], x) + [s[|s| - 1]]
  }

  /** Stable sort by sequence. */
  function Sorted(s: seq<Item>): seq<Item> {
    if s == [] then [] else Insert(Sorted(s[..|s| - 1]), s[|s| - 1])
  }

  ghost predicate Ascending(s: seq<Item>) {
    forall i, j :: 0 <= i < j < |s| ==> s[i].sequence < s[j].sequence
  }

  /** No two items share a sequence number. */
  ghost predicate Separate(s: seq<Item>) {
    forall i, j :: 0 <= i < j < |s| ==> s[i].sequence != s[j].sequence
  }

  lemma {:induction false} InsertMembers(s: seq<Item>, x: Item, y: Item)
    ensures |Insert(s, x)| == |s| + 1 && (y in Insert(s, x) <==> y in s || y == x)
  {
    if s != [] && s[|s| - 1].sequence > x.sequence {
      InsertMembers(s[..|s| - 1], x, y);
      assert s == s[..|s| - 1] + [s[|s| - 1]];
    }
  }

  lemma {:induction false} InsertAscends(s: seq<Item>, x: Item)
    requires Ascending(s) && forall k :: 0 <= k < |s| ==> s[k].sequence != x.sequence
    ensures Ascending(Insert(s, x))
  {
    if s != [] && s[|s| - 1].sequence > x.sequence {
      var init, last := s[..|s| - 1], s[|s| - 1];
      InsertAscends(init, x);
      forall k | 0 <= k < |Insert(init, x)| ensures Insert(init, x)[k].sequence < last.sequence {
        InsertMembers(init, x, Insert(init, x)[k]);
      }
    }
  }

  lemma {:induction false} SortedMembers(s: seq<Item>, y: Item)
    ensures |Sorted(s)| == |s| && (y in Sorted(s) <==> y in s)
  {
    if s != [] {
      SortedMembers(s[..|s| - 1], y);
      InsertMembers(Sorted(s[..|s| - 1]), s[|s| - 1], y);
      assert s == s[..|s| - 1] + [s[|s| - 1]];
    }
  }

  lemma {:induction false} SortedAscends(s: seq<Item>)
    requires Separate(s)
    ensures Ascending(Sorted(s))
  {
    if s != [] {
      var init, last := s[..|s| - 1], s[|s| - 1];
      SortedAscends(init);
      forall k | 0 <= k < |Sorted(init)| ensures Sorted(init)[k].sequence != last.sequence {
        SortedMembers(init, Sorted(init)[k]);
      }
      InsertAscends(Sorted(init), last);
    }
  }

  function After(s: seq<Item>, cursor: int): seq<Item> {
    if s == [] then []
    else After(s[..|s| - 1], cursor) + (if s[|s| - 1].sequence > cursor then [s[|s| - 1]] else [])
  }

  function Limit(limit: int): (n: nat)
    ensures 1 <= n <= 1000
  {
    if limit <= 0 || limit > 1000 then 100 else limit
  }

  /** `ReadMessages` once the pass is over. */
  function ReadOut(result: seq<Item>, cursor: int, limit: int): seq<Item> {
    var all := After(Sorted(result), cursor);
    if |all| <= Limit(limit) then all else all[..Limit(limit)]
  }

  lemma {:induction false} AfterMembers(s: seq<Item>, cursor: int, x: Item)
    ensures x in After(s, cursor) <==> x in s && x.sequence > cursor
  {
    if s != [] {
      AfterMembers(s[..|s| - 1], cursor, x);
      assert s == s[..|s| - 1] + [s[|s| - 1]];
    }
  }

  lemma {:induction false} AfterAscends(s: seq<Item>, cursor: int)
    requires Ascending(s)
    ensures Ascending(After(s, cursor))
  {
    if s != [] {
      var init := s[..|s| - 1];
      AfterAscends(init, cursor);
      forall k | 0 <= k < |After(init, cursor)| ensures After(init, cursor)[k].sequence < s[|s| - 1].sequence {
        AfterMembers(init, cursor, After(init, cursor)[k]);
      }
    }
  }

  lemma PassIsSeparate(ix: Index, p: Pass)
    requires Numbered(ix) && PassOk(ix, p)
    ensures Separate(p.result)
  {
    assert forall k :: 0 <= k < |p.result| ==> Entered(ix, p, p.result[k]);
  }

  lemma ReadCut(result: seq<Item>, cursor: int, limit: int, x: Item)
    requires Separate(result)
    ensures var out := ReadOut(result, cursor, limit);
            && |out| <= Limit(limit) && Ascending(out)
            && (x in out ==> x in result && x.sequence > cursor)
            && (x in result && x.sequence > cursor && x !in out ==>
                  |out| == Limit(limit) && forall k :: 0 <= k < |out| ==> out[k].sequence < x.sequence)
  {
    var all, out := After(Sorted(result), cursor), ReadOut(result, cursor, limit);
    SortedAscends(result);
    AfterAscends(Sorted(result), cursor);
    SortedMembers(result, x);
    AfterMembers(Sorted(result), cursor, x);
    if x in out {
      assert x in all;
    } else if x in all {
      var j :| 0 <= j < |all| && all[j] == x;
      assert forall k :: 0 <= k < |out| ==> out[k] == all[k] && out[k] in out;
      assert j >= |out|;
    }
  }

  /** What a read returns: the visible messages above the cursor in ascending order, cut at the
      limit; whatever was cut off lies above everything returned. */
  lemma ReadIsPrefix(result: seq<Item>, cursor: int, limit: int, x: Item)
    requires Separate(result)
    ensures var out, n := ReadOut(result, cursor, limit), if 1 <= limit <= 1000 then limit else 100;
            && |out| <= n && Ascending(out)
            && (x in out ==> x in result && x.sequence > cursor)
            && (x in result && x.sequence > cursor && x !in out ==>
                  |out| == n && forall k :: 0 <= k < |out| ==> out[k].sequence < x.sequence)
  {
    ReadCut(result, cursor, limit, x);
  }
}
