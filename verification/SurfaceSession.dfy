/** Surface sessions of the WeChat driver: one-shot action identifiers, and replay tombstones
    that are carried from one snapshot of a surface to the next. */
module SurfaceSession {

  // Opaque identifiers, compared for equality only; session identifiers are fresh random values.
  type SessionId = nat
  type ActionId = nat
  type ReplayId = nat
  type Window = nat

  // Trimmed and lower-cased; what the code does not single out is Other.
  datatype Risk = Low | High | SensitiveRisk | DestructiveRisk | OtherRisk
  datatype Effect = Observe | SearchInput | Navigate | ExternalWrite | HighRisk | Sensitive | Destructive | OtherEffect

  /** `usable`: identifier, replay identifier and locator are all there. */
  datatype Action = Action(
    id: ActionId, replay: ReplayId, usable: bool, disabled: bool, risk: Risk, effect: Effect, input: bool)

  /** `acceptable` stands for the checks on kind, window, picture and metadata. */
  datatype Surface = Surface(acceptable: bool, window: Window, actions: seq<Action>)

  datatype Session = Session(
    window: Window, actions: map<ActionId, Action>, consumed: set<ActionId>, tombstones: set<ReplayId>)

  datatype Request = Request(action: ActionId, textProvided: bool, textEmpty: bool, textBounded: bool, confirmed: bool)

  datatype Reply = Failed | Got(surface: Surface)

  /** One call of `backend.ActSurface`. */
  datatype Call = Call(session: SessionId, action: Action, request: Request, ok: bool)

  datatype State = State(surfaces: map<SessionId, Session>, issued: set<SessionId>, calls: seq<Call>)

  const Init := State(map[], {}, [])

  datatype Event =
    | Open(id: SessionId, surface: Surface)
    | Snapshot(id: SessionId, reply: Reply)
    | Act(id: SessionId, request: Request, reply: Reply)
    | Close(id: SessionId)
    | Restart

  predicate Forbidden(a: Action) {
    || a.disabled || a.risk == High || a.risk == SensitiveRisk || a.risk == DestructiveRisk
    || a.effect == HighRisk || a.effect == Sensitive || a.effect == Destructive
  }

  predicate TextFits(a: Action, q: Request) {
    (!q.textProvided ==> q.textEmpty) && (a.input <==> q.textProvided) && (q.textProvided ==> q.textBounded)
  }

  predicate NeedsConsent(a: Action) {
    a.risk != Low || a.effect == ExternalWrite
  }

  predicate Dispatches(a: Action, q: Request) {
    !Forbidden(a) && TextFits(a, q) && (NeedsConsent(a) ==> q.confirmed)
  }

  /** `shouldTombstoneReplay` */
  predicate Entombs(effect: Effect, succeeded: bool) {
    match effect
    case Observe => false
    case SearchInput => false
    case Navigate => !succeeded
    case _ => true
  }

  /** The live actions of a snapshot: a later entry with the same identifier replaces an earlier one. */
  function Live(actions: seq<Action>, consumed: set<ActionId>, tombstones: set<ReplayId>): map<ActionId, Action> {
    if actions == [] then map[]
    else
      var rest, a := Live(actions[..|actions| - 1], consumed, tombstones), actions[|actions| - 1];
      if Admitted(a, consumed, tombstones) then rest[a.id := a] else rest
  }

  predicate Admitted(a: Action, consumed: set<ActionId>, tombstones: set<ReplayId>) {
    a.usable && a.id !in consumed && a.replay !in tombstones
  }

  function Consumed(surfaces: map<SessionId, Session>, id: SessionId): set<ActionId> {
    if id in surfaces then surfaces[id].consumed else {}
  }

  function Tombstones(surfaces: map<SessionId, Session>, id: SessionId): set<ReplayId> {
    if id in surfaces then surfaces[id].tombstones else {}
  }

  /** `storeSurface` */
  function Store(surfaces: map<SessionId, Session>, id: SessionId, b: Surface): map<SessionId, Session> {
    if !b.acceptable then surfaces
    else
      var consumed, tombstones := Consumed(surfaces, id), Tombstones(surfaces, id);
      surfaces[id := Session(b.window, Live(b.actions, consumed, tombstones), consumed, tombstones)]
  }

  /** The session once `a` was dispatched: consumed before the call, entombed after it. */
  function Spent(session: Session, a: Action, ok: bool): Session {
    session.(actions := session.actions - {a.id}, consumed := session.consumed + {a.id},
             tombstones := if Entombs(a.effect, ok) then session.tombstones + {a.replay} else session.tombstones)
  }

  predicate Offers(surfaces: map<SessionId, Session>, id: SessionId, q: Request) {
    id in surfaces && q.action in surfaces[id].actions && Dispatches(surfaces[id].actions[q.action], q)
  }

  function AfterAct(surfaces: map<SessionId, Session>, id: SessionId, q: Request, reply: Reply): map<SessionId, Session>
    requires Offers(surfaces, id, q)
  {
    var spent := surfaces[id := Spent(surfaces[id], surfaces[id].actions[q.action], reply.Got?)];
    if reply.Got? then Store(spent, id, reply.surface) else spent
  }

  /** Every operation holds the driver's operation mutex from start to end. */
  function Step(s: State, e: Event): State {
    match e
    case Open(id, b) => if id in s.issued then s else State(Store(map[], id, b), s.issued + {id}, s.calls)
    case Snapshot(id, reply) =>
      if id in s.surfaces && reply.Got? && reply.surface.window == s.surfaces[id].window
      then s.(surfaces := Store(s.surfaces, id, reply.surface)) else s
    case Act(id, q, reply) =>
      if Offers(s.surfaces, id, q) then
        s.(surfaces := AfterAct(s.surfaces, id, q, reply),
           calls := s.calls + [Call(id, s.surfaces[id].actions[q.action], q, reply.Got?)])
      else s
    case Close(id) => s.(surfaces := s.surfaces - {id})
    case Restart => s.(surfaces := map[])
  }

  function Run(s: State, es: seq<Event>): State
    decreases |es|
  {
    if es == [] then s else Run(Step(s, es[0]), es[1..])
  }

  // What is live ----------------------------------------------------------------------------------

  /** Entry `k` is usable, was not spent and is not entombed, and no such entry follows it under its
      identifier. */
  ghost predicate LastAdmitted(actions: seq<Action>, consumed: set<ActionId>, tombstones: set<ReplayId>, k: int) {
    && 0 <= k < |actions| && actions[k].usable && actions[k].id !in consumed && actions[k].replay !in tombstones
    && (forall m :: k < m < |actions| && actions[m].id == actions[k].id ==>
          !actions[m].usable || actions[m].replay in tombstones)
  }

  /** The filter keeps exactly the last admitted entry of each identifier. */
  lemma {:induction false} LiveExactly(actions: seq<Action>, consumed: set<ActionId>, tombstones: set<ReplayId>, id: ActionId)
    ensures var live := Live(actions, consumed, tombstones);
            && (id in live ==> exists k :: LastAdmitted(actions, consumed, tombstones, k) && live[id] == actions[k] && actions[k].id == id)
            && (id !in live ==> forall k :: 0 <= k < |actions| && actions[k].id == id ==>
                  !actions[k].usable || id in consumed || actions[k].replay in tombstones)
  {
    if actions != [] {
      var init, last := actions[..|actions| - 1], |actions| - 1;
      var live := Live(init, consumed, tombstones);
      LiveExactly(init, consumed, tombstones, id);
      if actions[last].id == id && Admitted(actions[last], consumed, tombstones) {
        assert LastAdmitted(actions, consumed, tombstones, last);
      } else if id in live {
        var k :| LastAdmitted(init, consumed, tombstones, k) && live[id] == init[k] && init[k].id == id;
        assert LastAdmitted(actions, consumed, tombstones, k);
      }
    }
  }

  // One shot --------------------------------------------------------------------------------------

  ghost predicate SessionOk(session: Session) {
    forall id :: id in session.actions ==> session.actions[id].id == id && session.actions[id].usable && id !in session.consumed
  }

  /** A call that wrote, may have written, or may have navigated halfway. */
  predicate Lasting(effect: Effect, ok: bool) {
    effect !in {Observe, SearchInput, Navigate} || (effect == Navigate && !ok)
  }

  /** What a past call left in its session, while that lasts. */
  predicate Marked(surfaces: map<SessionId, Session>, call: Call) {
    call.session in surfaces ==>
      && call.action.id in surfaces[call.session].consumed
      && (Lasting(call.action.effect, call.ok) ==> call.action.replay in surfaces[call.session].tombstones)
  }

  /** Some call of the session spent the identifier. */
  ghost predicate SpentBy(calls: seq<Call>, session: SessionId, id: ActionId) {
    exists i :: 0 <= i < |calls| && calls[i].session == session && calls[i].action.id == id
  }

  /** Some call of the session had a lasting effect under the replay identifier. */
  ghost predicate BuriedBy(calls: seq<Call>, session: SessionId, r: ReplayId) {
    exists i :: 0 <= i < |calls| && calls[i].session == session && calls[i].action.replay == r &&
      Lasting(calls[i].action.effect, calls[i].ok)
  }

  /** A session remembers its own calls and nothing else. */
  ghost predicate Grounded(surfaces: map<SessionId, Session>, calls: seq<Call>) {
    forall id :: id in surfaces ==>
      && (forall a :: a in surfaces[id].consumed ==> SpentBy(calls, id, a))
      && (forall r :: r in surfaces[id].tombstones ==> BuriedBy(calls, id, r))
  }

  /** An enabled action of no high risk, with consent unless the risk is low and nothing is written, and
      with text exactly when it takes input. */
  predicate Lawful(call: Call) {
    && call.action.usable && !call.action.disabled
    && call.action.risk in {Low, OtherRisk} && call.action.effect !in {HighRisk, Sensitive, Destructive}
    && (call.request.confirmed || (call.action.risk == Low && call.action.effect != ExternalWrite))
    && (if call.action.input then call.request.textProvided && call.request.textBounded
        else !call.request.textProvided && call.request.textEmpty)
  }

  ghost predicate OneShot(calls: seq<Call>) {
    forall i, j :: 0 <= i < j < |calls| && calls[i].session == calls[j].session ==> calls[i].action.id != calls[j].action.id
  }

  ghost predicate Inv(s: State) {
    && s.surfaces.Keys <= s.issued
    && (forall id :: id in s.surfaces ==> SessionOk(s.surfaces[id]))
    && (forall i :: 0 <= i < |s.calls| ==> s.calls[i].session in s.issued && Marked(s.surfaces, s.calls[i]) && Lawful(s.calls[i]))
    && OneShot(s.calls) && Grounded(s.surfaces, s.calls)
  }

  lemma StoreOk(surfaces: map<SessionId, Session>, id: SessionId, b: Surface)
    requires id in surfaces ==> SessionOk(surfaces[id])
    ensures id in Store(surfaces, id, b) ==> SessionOk(Store(surfaces, id, b)[id])
  {
    forall a | a in Live(b.actions, Consumed(surfaces, id), Tombstones(surfaces, id))
      ensures var live := Live(b.actions, Consumed(surfaces, id), Tombstones(surfaces, id));
              live[a].id == a && live[a].usable && a !in Consumed(surfaces, id)
    {
      LiveExactly(b.actions, Consumed(surfaces, id), Tombstones(surfaces, id), a);
    }
  }

  lemma StepKeeps(s: State, e: Event)
    requires Inv(s)
    ensures Inv(Step(s, e))
  {
    match e
    case Open(id, b) => StoreOk(map[], id, b);
    case Snapshot(id, reply) => if reply.Got? { StoreOk(s.surfaces, id, reply.surface); }
    case Act(id, q, reply) =>
      if Offers(s.surfaces, id, q) {
        ActKeeps(s, id, q, reply);
      }
    case Close(id) =>
    case Restart =>
  }

  lemma ActKeeps(s: State, id: SessionId, q: Request, reply: Reply)
    requires Inv(s) && Offers(s.surfaces, id, q)
    ensures Inv(Step(s, Act(id, q, reply)))
  {
    var a := s.surfaces[id].actions[q.action];
    var spent := s.surfaces[id := Spent(s.surfaces[id], a, reply.Got?)];
    assert SessionOk(spent[id]);
    if reply.Got? {
      StoreOk(spent, id, reply.surface);
    }
    ActGrounded(s, id, q, reply);
  }

  lemma ActGrounded(s: State, id: SessionId, q: Request, reply: Reply)
    requires Grounded(s.surfaces, s.calls) && Offers(s.surfaces, id, q) && SessionOk(s.surfaces[id])
    ensures Grounded(Step(s, Act(id, q, reply)).surfaces, Step(s, Act(id, q, reply)).calls)
  {
    var s' := Step(s, Act(id, q, reply));
    var call := s'.calls[|s.calls|];
    forall other, a | SpentBy(s.calls, other, a) || (other == id && a == q.action) ensures SpentBy(s'.calls, other, a) {
      if SpentBy(s.calls, other, a) {
        var i :| 0 <= i < |s.calls| && s.calls[i].session == other && s.calls[i].action.id == a;
        assert s'.calls[i] == s.calls[i];
      } else {
        assert s'.calls[|s.calls|].action.id == a;
      }
    }
    forall other, r | BuriedBy(s.calls, other, r) ensures BuriedBy(s'.calls, other, r) {
      var i :| 0 <= i < |s.calls| && s.calls[i].session == other && s.calls[i].action.replay == r &&
               Lasting(s.calls[i].action.effect, s.calls[i].ok);
      assert s'.calls[i] == s.calls[i];
    }
    assert Lasting(call.action.effect, call.ok) ==> BuriedBy(s'.calls, id, call.action.replay);
  }

  lemma {:induction false} RunKeeps(s: State, es: seq<Event>)
    requires Inv(s)
    ensures Inv(Run(s, es))
    decreases |es|
  {
    if es != [] {
      StepKeeps(s, es[0]);
      RunKeeps(Step(s, es[0]), es[1..]);
    }
  }

  /** Over every run: within one session an action identifier reaches the backend at most once,
      never when disabled or of high risk, and with consent whenever the action needs it. */
  lemma ActionsAreOneShot(es: seq<Event>)
    ensures OneShot(Run(Init, es).calls)
    ensures forall i :: 0 <= i < |Run(Init, es).calls| ==> Lawful(Run(Init, es).calls[i])
  {
    RunKeeps(Init, es);
  }

  /** Over every run, an open session holds back exactly the identifiers its calls spent and exactly the
      replay identifiers its lasting calls buried: an observation, a search input or a successful
      navigation buries nothing. */
  lemma SessionsRememberExactly(es: seq<Event>, id: SessionId)
    requires id in Run(Init, es).surfaces
    ensures var s := Run(Init, es);
            && (forall a :: a in s.surfaces[id].consumed <==> SpentBy(s.calls, id, a))
            && (forall r :: r in s.surfaces[id].tombstones <==> BuriedBy(s.calls, id, r))
  {
    RunKeeps(Init, es);
    var s := Run(Init, es);
    assert forall i :: 0 <= i < |s.calls| ==> Marked(s.surfaces, s.calls[i]);
  }
}
