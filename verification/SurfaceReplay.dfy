/** When a surface session can repeat an action that must not be repeated.  Dispatch consults the
    consumed identifiers, not the tombstones: those only keep entries out of later snapshots. */
module SurfaceReplay {
  import opened SurfaceSession

  /** No two usable entries with different identifiers stand for the same action. */
  ghost predicate NoEcho(actions: seq<Action>) {
    forall i, j | 0 <= i < |actions| && 0 <= j < |actions| && actions[i].usable && actions[j].usable ::
      actions[i].replay == actions[j].replay ==> actions[i].id == actions[j].id
  }

  ghost predicate Clean(e: Event) {
    match e
    case Open(_, b) => NoEcho(b.actions)
    case Snapshot(_, reply) => reply.Got? ==> NoEcho(reply.surface.actions)
    case Act(_, _, reply) => reply.Got? ==> NoEcho(reply.surface.actions)
    case _ => true
  }

  /** No live action is entombed, and no two of them echo each other. */
  ghost predicate Solo(session: Session) {
    && (forall a :: a in session.actions ==> session.actions[a].replay !in session.tombstones)
    && (forall a, b | a in session.actions && b in session.actions ::
          session.actions[a].replay == session.actions[b].replay ==> a == b)
  }

  ghost predicate AllSolo(surfaces: map<SessionId, Session>) {
    forall id :: id in surfaces ==> Solo(surfaces[id])
  }

  ghost predicate Unrepeated(calls: seq<Call>) {
    forall i, j | 0 <= i < j < |calls| && calls[i].session == calls[j].session ::
      Lasting(calls[i].action.effect, calls[i].ok) ==> calls[i].action.replay != calls[j].action.replay
  }

  lemma StoreSolo(surfaces: map<SessionId, Session>, id: SessionId, b: Surface)
    requires AllSolo(surfaces) && NoEcho(b.actions)
    ensures AllSolo(Store(surfaces, id, b))
  {
    var consumed, tombstones := Consumed(surfaces, id), Tombstones(surfaces, id);
    var live := Live(b.actions, consumed, tombstones);
    forall a | a in live
      ensures exists k :: LastAdmitted(b.actions, consumed, tombstones, k) && live[a] == b.actions[k] && b.actions[k].id == a
    {
      LiveExactly(b.actions, consumed, tombstones, a);
    }
  }

  lemma StepSolo(s: State, e: Event)
    requires Inv(s) && AllSolo(s.surfaces) && Clean(e) && Unrepeated(s.calls)
    ensures AllSolo(Step(s, e).surfaces) && Unrepeated(Step(s, e).calls)
  {
    match e
    case Open(id, b) => StoreSolo(map[], id, b);
    case Snapshot(id, reply) => if reply.Got? { StoreSolo(s.surfaces, id, reply.surface); }
    case Act(id, q, reply) =>
      if Offers(s.surfaces, id, q) {
        ActSolo(s.surfaces, id, q, reply);
        assert forall i :: 0 <= i < |s.calls| ==> Marked(s.surfaces, s.calls[i]);
      }
    case Close(id) =>
    case Restart =>
  }

  lemma ActSolo(surfaces: map<SessionId, Session>, id: SessionId, q: Request, reply: Reply)
    requires AllSolo(surfaces) && Offers(surfaces, id, q) && SessionOk(surfaces[id])
    requires reply.Got? ==> NoEcho(reply.surface.actions)
    ensures AllSolo(AfterAct(surfaces, id, q, reply))
  {
    var spent := surfaces[id := Spent(surfaces[id], surfaces[id].actions[q.action], reply.Got?)];
    assert Solo(spent[id]);
    if reply.Got? {
      StoreSolo(spent, id, reply.surface);
    }
  }

  lemma {:induction false} RunSolo(s: State, es: seq<Event>)
    requires Inv(s) && AllSolo(s.surfaces) && Unrepeated(s.calls)
    requires forall k :: 0 <= k < |es| ==> Clean(es[k])
    ensures Unrepeated(Run(s, es).calls)
    decreases |es|
  {
    if es != [] {
      StepSolo(s, es[0]);
      StepKeeps(s, es[0]);
      RunSolo(Step(s, es[0]), es[1..]);
    }
  }

  /** When no snapshot echoes, an action that wrote, might have written, or failed to navigate is
      never dispatched again in its session under any identifier. */
  lemma NothingIsRepeated(es: seq<Event>)
    requires forall k :: 0 <= k < |es| ==> Clean(es[k])
    ensures Unrepeated(Run(Init, es).calls)
  {
    RunSolo(Init, es);
  }

  // The exact condition ----------------------------------------------------------------------------

  /** Some continuation dispatches the replay identifier again in that session. */
  ghost predicate Repeats(s: State, es: seq<Event>, id: SessionId, r: ReplayId) {
    exists j :: |s.calls| <= j < |Run(s, es).calls| && Run(s, es).calls[j].session == id && Run(s, es).calls[j].action.replay == r
  }

  /** A live entry that a suitable request would dispatch carries the replay identifier. */
  predicate Armed(surfaces: map<SessionId, Session>, id: SessionId, r: ReplayId) {
    id in surfaces && exists b :: b in surfaces[id].actions && surfaces[id].actions[b].replay == r && !Forbidden(surfaces[id].actions[b])
  }

  /** The session, if it still exists, has entombed `r` and has no live entry for it. */
  predicate Buried(s: State, id: SessionId, r: ReplayId) {
    id in s.issued && (id in s.surfaces ==> r in s.surfaces[id].tombstones) && !Armed(s.surfaces, id, r)
  }

  lemma StoreBuried(surfaces: map<SessionId, Session>, other: SessionId, b: Surface, id: SessionId, r: ReplayId)
    requires id in surfaces ==> r in surfaces[id].tombstones
    requires !Armed(surfaces, id, r) && (other == id ==> id in surfaces)
    ensures !Armed(Store(surfaces, other, b), id, r)
    ensures id in Store(surfaces, other, b) ==> id in surfaces && r in Store(surfaces, other, b)[id].tombstones
  {
    if other == id {
      var live := Live(b.actions, surfaces[id].consumed, surfaces[id].tombstones);
      forall a | a in live ensures live[a].replay != r {
        LiveExactly(b.actions, surfaces[id].consumed, surfaces[id].tombstones, a);
      }
    }
  }

  lemma StepBuried(s: State, e: Event, id: SessionId, r: ReplayId)
    requires Inv(s) && Buried(s, id, r)
    ensures Buried(Step(s, e), id, r)
    ensures |s.calls| <= |Step(s, e).calls| && forall j :: |s.calls| <= j < |Step(s, e).calls| ==>
              Step(s, e).calls[j].session != id || Step(s, e).calls[j].action.replay != r
  {
    match e
    case Open(other, b) =>
      if other !in s.issued {
        StoreBuried(map[], other, b, id, r);
      }
    case Snapshot(other, reply) =>
      if reply.Got? && other in s.surfaces {
        StoreBuried(s.surfaces, other, reply.surface, id, r);
      }
    case Act(other, q, reply) =>
      if Offers(s.surfaces, other, q) {
        var spent := s.surfaces[other := Spent(s.surfaces[other], s.surfaces[other].actions[q.action], reply.Got?)];
        assert !Armed(spent, id, r);
        if reply.Got? {
          StoreBuried(spent, other, reply.surface, id, r);
        }
      }
    case Close(other) =>
    case Restart =>
  }

  lemma {:induction false} BuriedForever(s: State, es: seq<Event>, id: SessionId, r: ReplayId, from: nat)
    requires Inv(s) && Buried(s, id, r) && from <= |s.calls|
    requires forall j :: from <= j < |s.calls| ==> s.calls[j].session != id || s.calls[j].action.replay != r
    ensures forall j :: from <= j < |Run(s, es).calls| ==>
              Run(s, es).calls[j].session != id || Run(s, es).calls[j].action.replay != r
    decreases |es|
  {
    if es != [] {
      var s' := Step(s, es[0]);
      StepBuried(s, es[0], id, r);
      StepKeeps(s, es[0]);
      assert forall j :: 0 <= j < |s.calls| ==> s'.calls[j] == s.calls[j];
      BuriedForever(s', es[1..], id, r, from);
    }
  }

  /** A request that dispatches `a`, with consent and the text its kind asks for. */
  function Asking(a: Action, id: ActionId): Request {
    Request(id, a.input, !a.input, true, true)
  }

  /** In every reachable state: an entombed replay identifier can be dispatched once more exactly
      when the current snapshot still holds a live, permitted entry that carries it.  Only a second
      entry of the same snapshot can, because every later snapshot is filtered. */
  lemma RepeatableExactly(s: State, id: SessionId, r: ReplayId)
    requires Inv(s) && id in s.surfaces && r in s.surfaces[id].tombstones
    ensures (exists es :: Repeats(s, es, id, r)) <==> Armed(s.surfaces, id, r)
  {
    if Armed(s.surfaces, id, r) {
      var b :| b in s.surfaces[id].actions && s.surfaces[id].actions[b].replay == r && !Forbidden(s.surfaces[id].actions[b]);
      var e := Act(id, Asking(s.surfaces[id].actions[b], b), Failed);
      assert Offers(s.surfaces, id, e.request);
      assert Run(s, [e]) == Step(s, e);
      assert Step(s, e).calls[|s.calls|].session == id;
      assert Repeats(s, [e], id, r);
    } else {
      forall es ensures !Repeats(s, es, id, r) {
        BuriedForever(s, es, id, r, |s.calls|);
      }
    }
  }

  const Pay := Action(1, 7, true, false, OtherRisk, ExternalWrite, false)
  const PayAgain := Pay.(id := 2)

  lemma TwoLive()
    ensures Live([Pay, PayAgain], {}, {}) == map[1 := Pay, 2 := PayAgain]
  {
    assert [Pay, PayAgain][..1] == [Pay];
    assert Live([Pay], {}, {}) == map[1 := Pay];
  }

  lemma TwoDispatches(s: State)
    requires s.surfaces == map[0 := Session(3, map[1 := Pay, 2 := PayAgain], {}, {})] && s.calls == []
    ensures Step(Step(s, Act(0, Asking(Pay, 1), Failed)), Act(0, Asking(Pay, 2), Failed)).calls ==
            [Call(0, Pay, Asking(Pay, 1), false), Call(0, PayAgain, Asking(Pay, 2), false)]
  {
    assert Step(s, Act(0, Asking(Pay, 1), Failed)).surfaces[0].actions == map[2 := PayAgain];
  }

  /** A snapshot that lists one purchase twice lets a failed first dispatch be repeated. */
  lemma EchoRepeats()
    ensures !Unrepeated(Run(Init, [Open(0, Surface(true, 3, [Pay, PayAgain])),
                                   Act(0, Asking(Pay, 1), Failed), Act(0, Asking(Pay, 2), Failed)]).calls)
  {
    var e0, e1, e2 := Open(0, Surface(true, 3, [Pay, PayAgain])), Act(0, Asking(Pay, 1), Failed), Act(0, Asking(Pay, 2), Failed);
    TwoLive();
    var s1 := Step(Init, e0);
    TwoDispatches(s1);
    assert Run(Init, [e0, e1, e2]) == Run(s1, [e1, e2]);
    assert Run(s1, [e1, e2]) == Run(Step(s1, e1), [e2]);
    assert Run(Step(s1, e1), [e2]) == Step(Step(s1, e1), e2);
    var calls := Run(Init, [e0, e1, e2]).calls;
    assert calls[0].action.replay == calls[1].action.replay;
  }
}
