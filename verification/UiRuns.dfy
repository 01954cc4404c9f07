/** The UI index over every interleaving of its passes, with ingest reading it by cursor. */
module UiRuns {
  import opened Common
  import opened UiIndex

  /** `delivered` are the messages of all ingest batches that were stored, in order; `issued` and
      `consumed` are the surface references handed out and looked up with success. */
  datatype State = State(
    ix: Index, passes: map<Thread, Pass>, ingest: Option<Thread>, cursor: int,
    delivered: seq<Item>, issued: seq<Ref>, consumed: seq<Ref>)

  const Init := State(Index(map[], 0, map[], 0), map[], None, 0, [], [], [])

  datatype Event =
    | Begin(t: Thread, conversation: ConversationId, now: Time, ingest: bool)
    | Show(t: Thread, v: Visible)
    | Number(t: Thread)
    | Abandon(t: Thread)
    | Store(ok: bool)
    | Resolve(r: Ref)

  predicate Enabled(s: State, e: Event) {
    match e
    // Ingest holds its own mutex: one ingest pass at a time.
    case Begin(t, _, _, ingest) => t !in s.passes && (ingest ==> s.ingest.None?)
    case Show(t, v) => t in s.passes && s.passes[t].pending.None? && v.shown
    case Number(t) => t in s.passes && s.passes[t].pending.Some?
    case Abandon(t) => t in s.passes
    case Store(_) => s.ingest.Some? && s.ingest.value in s.passes && s.passes[s.ingest.value].pending.None?
    case Resolve(r) => r in s.ix.surfaces
  }

  function Highest(s: seq<Item>, cursor: int): int {
    if s == [] then cursor
    else
      var h := Highest(s[..|s| - 1], cursor);
      if s[|s| - 1].sequence > h then s[|s| - 1].sequence else h
  }

  function Batch(s: State): seq<Item>
    requires s.ingest.Some? && s.ingest.value in s.passes
  {
    ReadOut(s.passes[s.ingest.value].result, s.cursor, 1000)
  }

  function Next(s: State, e: Event): State
    requires Enabled(s, e)
  {
    match e
    case Begin(t, conversation, now, ingest) =>
      s.(ix := Opened(s.ix, conversation, now), passes := s.passes[t := NewPass(s.ix, conversation, now)],
         ingest := if ingest then Some(t) else s.ingest)
    case Show(t, v) =>
      s.(ix := Leased(s.ix, s.passes[t], v), passes := s.passes[t := Counted(s.passes[t], v)],
         issued := if v.surface then s.issued + [RefOf(s.passes[t], v)] else s.issued)
    case Number(t) =>
      s.(ix := Assigned(s.ix, s.passes[t].pending.value), passes := s.passes[t := Listed(s.ix, s.passes[t])])
    // A read that is not ingest's, or one whose answer is lost.
    case Abandon(t) =>
      s.(passes := s.passes - {t}, ingest := if s.ingest == Some(t) then None else s.ingest)
    // The cursor moves only when the batch was stored.
    case Store(ok) =>
      s.(passes := s.passes - {s.ingest.value}, ingest := None,
         cursor := if ok then Highest(Batch(s), s.cursor) else s.cursor,
         delivered := if ok then s.delivered + Batch(s) else s.delivered)
    case Resolve(r) => s.(ix := s.ix.(surfaces := s.ix.surfaces - {r}), consumed := s.consumed + [r])
  }

  function Step(s: State, e: Event): State {
    if Enabled(s, e) then Next(s, e) else s
  }

  function Run(s: State, es: seq<Event>): State
    decreases |es|
  {
    if es == [] then s else Run(Step(s, es[0]), es[1..])
  }

  // Numbers and batches ---------------------------------------------------------------------------------

  ghost predicate DeliveredOk(ix: Index, delivered: seq<Item>, cursor: int) {
    && Ascending(delivered)
    && (forall k :: 0 <= k < |delivered| ==>
          delivered[k].sequence <= cursor && Registered(ix, delivered[k]))
  }

  ghost predicate PassesOk(ix: Index, passes: map<Thread, Pass>) {
    forall t :: t in passes ==> PassOk(ix, passes[t])
  }

  ghost predicate CountInv(s: State) {
    Numbered(s.ix) && PassesOk(s.ix, s.passes) && DeliveredOk(s.ix, s.delivered, s.cursor)
  }

  lemma ShowCounts(s: State, t: Thread, v: Visible)
    requires CountInv(s) && Enabled(s, Show(t, v))
    ensures CountInv(Next(s, Show(t, v))) && Stable(s.ix, Next(s, Show(t, v)).ix)
  {
    var ix := Leased(s.ix, s.passes[t], v);
    CountedIsOk(s.ix, s.passes[t], v);
    forall u | u in s.passes && u != t ensures PassOk(ix, s.passes[u]) {
      StablePass(s.ix, ix, s.passes[u]);
    }
  }

  lemma NumberCounts(s: State, t: Thread)
    requires CountInv(s) && Enabled(s, Number(t))
    ensures CountInv(Next(s, Number(t))) && Stable(s.ix, Next(s, Number(t)).ix)
  {
    var ix := Assigned(s.ix, s.passes[t].pending.value);
    AssignedIsNumbered(s.ix, s.passes[t].pending.value);
    ListedIsOk(s.ix, s.passes[t]);
    forall u | u in s.passes && u != t ensures PassOk(ix, s.passes[u]) {
      StablePass(s.ix, ix, s.passes[u]);
    }
  }

  lemma {:induction false} HighestIsLast(s: seq<Item>, cursor: int)
    requires Ascending(s) && forall k :: 0 <= k < |s| ==> s[k].sequence > cursor
    ensures Highest(s, cursor) == if s == [] then cursor else s[|s| - 1].sequence
  {
    if s != [] {
      HighestIsLast(s[..|s| - 1], cursor);
    }
  }

  lemma StoreCounts(s: State, ok: bool)
    requires CountInv(s) && Enabled(s, Store(ok))
    ensures CountInv(Next(s, Store(ok)))
  {
    var p, batch := s.passes[s.ingest.value], Batch(s);
    assert PassOk(s.ix, p);
    PassIsSeparate(s.ix, p);
    forall k | 0 <= k < |batch| ensures Registered(s.ix, batch[k]) && batch[k].sequence > s.cursor {
      ReadIsPrefix(p.result, s.cursor, 1000, batch[k]);
      var j :| 0 <= j < |p.result| && p.result[j] == batch[k];
      assert Entered(s.ix, p, p.result[j]);
    }
    ReadIsPrefix(p.result, s.cursor, 1000, Item(MessageId(0, 0, 0), 0));
    HighestIsLast(batch, s.cursor);
    DeliveredMore(s.ix, s.delivered, s.cursor, batch);
  }

  predicate Registered(ix: Index, x: Item) {
    x.id in ix.sequences && ix.sequences[x.id] == x.sequence
  }

  lemma DeliveredMore(ix: Index, delivered: seq<Item>, cursor: int, batch: seq<Item>)
    requires DeliveredOk(ix, delivered, cursor) && Ascending(batch)
    requires forall k :: 0 <= k < |batch| ==> Registered(ix, batch[k]) && batch[k].sequence > cursor
    ensures DeliveredOk(ix, delivered + batch, if batch == [] then cursor else batch[|batch| - 1].sequence)
  {
  }

  lemma StepCounts(s: State, e: Event)
    requires CountInv(s)
    ensures CountInv(Step(s, e)) && Stable(s.ix, Step(s, e).ix)
  {
    if Enabled(s, e) {
      match e
      case Show(t, v) => ShowCounts(s, t, v);
      case Number(t) => NumberCounts(s, t);
      case Store(ok) => StoreCounts(s, ok);
      case _ =>
    }
  }

  lemma {:induction false} RunCounts(s: State, es: seq<Event>)
    requires CountInv(s)
    ensures CountInv(Run(s, es)) && Stable(s.ix, Run(s, es).ix)
    decreases |es|
  {
    if es != [] {
      StepCounts(s, es[0]);
      RunCounts(Step(s, es[0]), es[1..]);
    }
  }

  /** Over every run: numbers are injective, bounded and never change once given. */
  lemma SequencesAreStable(es: seq<Event>, more: seq<Event>)
    ensures Numbered(Run(Init, es).ix) && Stable(Run(Init, es).ix, Run(Run(Init, es), more).ix)
  {
    RunCounts(Init, es);
    RunCounts(Run(Init, es), more);
  }

  /** Over every run: ingest stores its messages in ascending order, and no message twice, in one
      batch or in several. */
  lemma IngestedAtMostOnce(es: seq<Event>)
    ensures var d := Run(Init, es).delivered;
            Ascending(d) && forall i, j :: 0 <= i < j < |d| ==> d[i].id != d[j].id
  {
    RunCounts(Init, es);
  }

  // References --------------------------------------------------------------------------------------------

  ghost predicate Distinct(s: seq<Ref>) {
    forall i, j :: 0 <= i < j < |s| ==> s[i] != s[j]
  }

  /** A reference belongs to a past batch, or to a count that its pass has reached. */
  predicate Old(r: Ref, ix: Index, passes: map<Thread, Pass>) {
    && r.batch <= ix.surfaceBatch
    && (forall t :: t in passes && passes[t].batch == r.batch ==>
          r.message.occurrence <= Count(passes[t].occurrences, r.message.signature))
  }

  ghost predicate RefInv(s: State) {
    && (forall t :: t in s.passes ==> s.passes[t].batch <= s.ix.surfaceBatch)
    && (forall t, u :: t in s.passes && u in s.passes && s.passes[t].batch == s.passes[u].batch ==> t == u)
    && (forall k :: 0 <= k < |s.issued| ==> Old(s.issued[k], s.ix, s.passes))
    && Distinct(s.issued) && Distinct(s.consumed)
    && (forall r :: r in s.ix.surfaces ==> r in s.issued)
    && (forall k :: 0 <= k < |s.consumed| ==> s.consumed[k] in s.issued && s.consumed[k] !in s.ix.surfaces)
  }

  lemma ShowRefs(s: State, t: Thread, v: Visible)
    requires RefInv(s) && Enabled(s, Show(t, v))
    ensures RefInv(Next(s, Show(t, v)))
  {
    var p, s' := s.passes[t], Next(s, Show(t, v));
    var r := RefOf(p, v);
    assert forall k :: 0 <= k < |s.issued| ==> Old(s.issued[k], s'.ix, s'.passes);
    assert Old(r, s'.ix, s'.passes);
    assert r !in s.issued;
  }

  /** A pass that begins takes a batch number of its own. */
  lemma BeginRefs(s: State, e: Event)
    requires RefInv(s) && e.Begin? && Enabled(s, e)
    ensures RefInv(Next(s, e))
  {
    assert forall k :: 0 <= k < |s.issued| ==> Old(s.issued[k], Next(s, e).ix, Next(s, e).passes);
  }

  /** Numbering and ending a pass hand out nothing. */
  lemma QuietRefs(s: State, e: Event)
    requires RefInv(s) && (e.Number? || e.Abandon? || e.Store?) && Enabled(s, e)
    ensures RefInv(Next(s, e))
  {
    assert forall k :: 0 <= k < |s.issued| ==> Old(s.issued[k], Next(s, e).ix, Next(s, e).passes);
  }

  /** A reference that is looked up leaves the index. */
  lemma ResolveRefs(s: State, e: Event)
    requires RefInv(s) && e.Resolve? && Enabled(s, e)
    ensures RefInv(Next(s, e))
  {
    assert forall k :: 0 <= k < |s.issued| ==> Old(s.issued[k], Next(s, e).ix, Next(s, e).passes);
  }

  lemma StepRefs(s: State, e: Event)
    requires RefInv(s)
    ensures RefInv(Step(s, e))
  {
    if Enabled(s, e) {
      match e
      case Show(t, v) => ShowRefs(s, t, v);
      case Begin(_, _, _, _) => BeginRefs(s, e);
      case Resolve(_) => ResolveRefs(s, e);
      case _ => QuietRefs(s, e);
    }
  }

  lemma {:induction false} RunRefs(s: State, es: seq<Event>)
    requires RefInv(s)
    ensures RefInv(Run(s, es))
    decreases |es|
  {
    if es != [] {
      StepRefs(s, es[0]);
      RunRefs(Step(s, es[0]), es[1..]);
    }
  }

  /** Over every run: all surface references ever handed out differ, and each can be turned into a
      click at most once. */
  lemma ReferencesAreOneShot(es: seq<Event>)
    ensures Distinct(Run(Init, es).issued) && Distinct(Run(Init, es).consumed)
    ensures forall k :: 0 <= k < |Run(Init, es).consumed| ==> Run(Init, es).consumed[k] in Run(Init, es).issued
  {
    RunRefs(Init, es);
  }
}
