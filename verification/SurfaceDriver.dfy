/** The driver's surface operations on its own map of sessions. */
module SurfaceDriver {
  import opened SurfaceSession

  datatype Error = Ok | Missing | Stale | UserActionRequired | InvalidArgument | ConfirmationRequired | BackendFailed | Refused

  /** A snapshot's element offers, once each and in order, the listed actions that are live. */
  function Offered(ids: seq<ActionId>, live: map<ActionId, Action>): (r: seq<ActionId>)
    ensures forall k :: 0 <= k < |r| ==> r[k] in live && r[k] in ids
    ensures forall id :: id in ids && id in live ==> id in r
    ensures forall i, j :: 0 <= i < j < |r| ==> r[i] != r[j]
  {
    if ids == [] then []
    else
      var rest, id := Offered(ids[..|ids| - 1], live), ids[|ids| - 1];
      if id in live && id !in ids[..|ids| - 1] then rest + [id] else rest
  }

  /** The answer for a live action: high risk is for the user alone, then the text must fit, then consent
      is asked for; what is left goes to the backend. */
  predicate Judged(a: Action, q: Request, reply: Reply, error: Error) {
    if a.disabled || a.risk in {High, SensitiveRisk, DestructiveRisk} || a.effect in {HighRisk, Sensitive, Destructive}
    then error == UserActionRequired
    else if a.input && !(q.textProvided && q.textBounded) then error == InvalidArgument
    else if !a.input && !(q.textEmpty && !q.textProvided) then error == InvalidArgument
    else if !q.confirmed && (a.risk != Low || a.effect == ExternalWrite) then error == ConfirmationRequired
    else error == match reply case Failed => BackendFailed case Got(b) => if b.acceptable then Ok else Refused
  }

  /** A dispatched action: spent in its session whatever the backend says, and buried there exactly when its
      effect may last.  Other sessions are left alone. */
  ghost predicate Dispatched(before: map<SessionId, Session>, after: map<SessionId, Session>, id: SessionId, a: Action, reply: Reply)
    requires id in before
  {
    && after.Keys == before.Keys && (forall other :: other in before && other != id ==> after[other] == before[other])
    && after[id].consumed == before[id].consumed + {a.id}
    && after[id].tombstones == before[id].tombstones + (if Lasting(a.effect, reply.Got?) then {a.replay} else {})
    && (if reply.Got? && reply.surface.acceptable
        then after[id].window == reply.surface.window && after[id].actions == Live(reply.surface.actions, after[id].consumed, after[id].tombstones)
        else after[id].window == before[id].window && after[id].actions == before[id].actions - {a.id})
  }

  lemma DispatchedBy(surfaces: map<SessionId, Session>, id: SessionId, q: Request, reply: Reply)
    requires Offers(surfaces, id, q) && surfaces[id].actions[q.action].id == q.action
    ensures Dispatched(surfaces, AfterAct(surfaces, id, q, reply), id, surfaces[id].actions[q.action], reply)
  {
  }

  /** Which answer `ActSurface` gives; only the last three follow a call of the backend. */
  function Verdict(surfaces: map<SessionId, Session>, id: SessionId, q: Request, reply: Reply): (error: Error)
    ensures error in {Ok, BackendFailed, Refused} <==> Offers(surfaces, id, q)
    ensures error == Stale <==> id !in surfaces || q.action !in surfaces[id].actions
    ensures error != Stale ==> Judged(surfaces[id].actions[q.action], q, reply, error)
  {
    if id !in surfaces || q.action !in surfaces[id].actions then Stale
    else if Forbidden(surfaces[id].actions[q.action]) then UserActionRequired
    else if !TextFits(surfaces[id].actions[q.action], q) then InvalidArgument
    else if NeedsConsent(surfaces[id].actions[q.action]) && !q.confirmed then ConfirmationRequired
    else if reply.Failed? then BackendFailed
    else if reply.surface.acceptable then Ok
    else Refused
  }

  class Driver {
    var surfaces: map<SessionId, Session>
    ghost var issued: set<SessionId>
    ghost var calls: seq<Call>

    ghost function Snapshot(): State
      reads this
    {
      State(surfaces, issued, calls)
    }

    ghost predicate Valid()
      reads this
    {
      Inv(Snapshot())
    }

    constructor ()
      ensures Valid() && Snapshot() == Init
    {
      surfaces, issued, calls := map[], {}, [];
    }

    /** The loop that admits a snapshot's entries. */
    method LiveActions(actions: seq<Action>, consumed: set<ActionId>, tombstones: set<ReplayId>)
      returns (live: map<ActionId, Action>)
      ensures live == Live(actions, consumed, tombstones)
    {
      live := map[];
      for i := 0 to |actions|
        invariant live == Live(actions[..i], consumed, tombstones)
      {
        assert actions[..i + 1][..i] == actions[..i];
        if actions[i].usable && actions[i].id !in consumed && actions[i].replay !in tombstones {
          live := live[actions[i].id := actions[i]];
        }
      }
      assert actions[..|actions|] == actions;
    }

    /** The loop over one element's candidate identifiers. */
    method OfferedIds(ids: seq<ActionId>, live: map<ActionId, Action>) returns (r: seq<ActionId>)
      ensures r == Offered(ids, live)
    {
      r := [];
      var seen := {};
      for i := 0 to |ids|
        invariant seen == (set id | id in ids[..i]) && r == Offered(ids[..i], live)
      {
        assert ids[..i + 1][..i] == ids[..i];
        if ids[i] !in seen {
          seen := seen + {ids[i]};
          if ids[i] in live {
            r := r + [ids[i]];
          }
        }
      }
      assert ids[..|ids|] == ids;
    }

    /** `storeSurface`: consumed identifiers and tombstones outlive the snapshot they came from. */
    method StoreSurface(id: SessionId, b: Surface) returns (error: Error)
      modifies this`surfaces
      ensures surfaces == Store(old(surfaces), id, b) && error == (if b.acceptable then Ok else Refused)
    {
      if !b.acceptable {
        return Refused;
      }
      var consumed, tombstones := {}, {};
      if id in surfaces {
        consumed, tombstones := surfaces[id].consumed, surfaces[id].tombstones;
      }
      var live := LiveActions(b.actions, consumed, tombstones);
      surfaces := surfaces[id := Session(b.window, live, consumed, tombstones)];
      error := Ok;
    }

    method OpenSurface(id: SessionId, b: Surface) returns (error: Error)
      requires Valid() && id !in issued
      modifies this
      ensures Valid() && Snapshot() == Step(old(Snapshot()), Open(id, b))
      ensures surfaces.Keys <= {id} && (error == Ok <==> id in surfaces)
    {
      StepKeeps(Snapshot(), Open(id, b));
      surfaces := map[];
      issued := issued + {id};
      error := StoreSurface(id, b);
    }

    method SnapshotSurface(id: SessionId, reply: Reply) returns (error: Error)
      requires Valid()
      modifies this
      ensures Valid() && Snapshot() == Step(old(Snapshot()), SurfaceSession.Snapshot(id, reply))
      ensures error == if id !in old(surfaces) then Missing else if reply.Failed? then BackendFailed
                       else if reply.surface.window != old(surfaces)[id].window then Stale
                       else if reply.surface.acceptable then Ok else Refused
    {
      StepKeeps(Snapshot(), SurfaceSession.Snapshot(id, reply));
      if id !in surfaces {
        return Missing;
      }
      if reply.Failed? {
        return BackendFailed;
      }
      if reply.surface.window != surfaces[id].window {
        return Stale;
      }
      error := StoreSurface(id, reply.surface);
    }

    /** `ActSurface`: the capability is spent before the backend is called, whatever it answers. */
    method ActSurface(id: SessionId, q: Request, reply: Reply) returns (error: Error)
      requires Valid()
      modifies this
      ensures Valid() && Snapshot() == Step(old(Snapshot()), Act(id, q, reply))
      ensures error == Verdict(old(surfaces), id, q, reply)
      ensures error in {Ok, BackendFailed, Refused} ==>
                && id in old(surfaces) && q.action in old(surfaces)[id].actions
                && calls == old(calls) + [Call(id, old(surfaces)[id].actions[q.action], q, reply.Got?)]
                && Dispatched(old(surfaces), surfaces, id, old(surfaces)[id].actions[q.action], reply)
                && q.action in surfaces[id].consumed && q.action !in surfaces[id].actions
      ensures error !in {Ok, BackendFailed, Refused} ==> calls == old(calls) && surfaces == old(surfaces)
    {
      StepKeeps(Snapshot(), Act(id, q, reply));
      if id !in surfaces || q.action !in surfaces[id].actions {
        return Stale;
      }
      var action := surfaces[id].actions[q.action];
      if Forbidden(action) {
        return UserActionRequired;
      }
      if !TextFits(action, q) {
        return InvalidArgument;
      }
      if NeedsConsent(action) && !q.confirmed {
        return ConfirmationRequired;
      }
      DispatchedBy(surfaces, id, q, reply);
      error := Dispatch(id, q, reply);
    }

    /** The action is spent, carried out and entombed, and the snapshot it brings is stored. */
    method Dispatch(id: SessionId, q: Request, reply: Reply) returns (error: Error)
      requires Offers(surfaces, id, q) && surfaces[id].actions[q.action].id == q.action
      modifies this`surfaces, this`calls
      ensures surfaces == AfterAct(old(surfaces), id, q, reply)
      ensures calls == old(calls) + [Call(id, old(surfaces)[id].actions[q.action], q, reply.Got?)]
      ensures error == if reply.Failed? then BackendFailed else if reply.surface.acceptable then Ok else Refused
    {
      var action := surfaces[id].actions[q.action];
      Consume(id, action);
      // backend.ActSurface
      calls := calls + [Call(id, action, q, reply.Got?)];
      if Entombs(action.effect, reply.Got?) {
        Entomb(id, action.replay);
      }
      assert surfaces == old(surfaces)[id := Spent(old(surfaces)[id], action, reply.Got?)];
      if reply.Failed? {
        return BackendFailed;
      }
      error := StoreSurface(id, reply.surface);
    }

    method Consume(id: SessionId, action: Action)
      requires id in surfaces
      modifies this`surfaces
      ensures surfaces == old(surfaces)[id := old(surfaces)[id].(actions := old(surfaces)[id].actions - {action.id},
                                                                  consumed := old(surfaces)[id].consumed + {action.id})]
    {
      var session := surfaces[id];
      surfaces := surfaces[id := session.(actions := session.actions - {action.id}, consumed := session.consumed + {action.id})];
    }

    method Entomb(id: SessionId, replay: ReplayId)
      requires id in surfaces
      modifies this`surfaces
      ensures surfaces == old(surfaces)[id := old(surfaces)[id].(tombstones := old(surfaces)[id].tombstones + {replay})]
    {
      surfaces := surfaces[id := surfaces[id].(tombstones := surfaces[id].tombstones + {replay})];
    }

    /** `CloseSurface`: the session is gone before the backend is asked. */
    method CloseSurface(id: SessionId, ok: bool) returns (error: Error)
      requires Valid()
      modifies this
      ensures Valid() && Snapshot() == Step(old(Snapshot()), Close(id)) && id !in surfaces
      ensures error == Missing <==> id !in old(surfaces)
    {
      StepKeeps(Snapshot(), Close(id));
      error := if id !in surfaces then Missing else if ok then Ok else BackendFailed;
      surfaces := surfaces - {id};
    }
  }
}
