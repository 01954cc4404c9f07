/** Adding and removing accounts with a crash possible between any two disk operations.  The
    registry file is replaced atomically; directories are built and erased piece by piece. */
module AccountRemoval {

  // Account identifiers are fresh random values, compared for equality only.
  type Id = nat

  datatype Slot = Slot(active: bool, deleting: bool)

  datatype Dir = Whole | Partial

  /** The section of the store's mutex that is under way. */
  datatype Section =
    | Free
    | AddBuilding(id: Id)     // directory made, profile directory not yet
    | AddSaving(id: Id)       // both made, registry not yet written
    | AddUndoing(id: Id)      // failed, directory to be removed again
    | Erasing(id: Id)         // FinalizeDelete is removing the state
    | Erased(id: Id)          // state gone, marker still in the registry

  /** How far the one running `RemoveAccount` has come; it holds deleteMu. */
  datatype Removal = NoRemoval | MarkedStage(id: Id) | PurgedStage(id: Id)

  type Reader = nat

  /** A request that holds deleteMu for reading: it has resolved its account, or opened its index. */
  datatype Lookup = Resolved(id: Id) | Opened(id: Id)

  /** `disk` and `dirs` survive a crash; the rest but `used` does not. */
  datatype State = State(
    disk: map<Id, Slot>, dirs: map<Id, Dir>, mem: map<Id, Slot>, section: Section, removal: Removal,
    readers: map<Reader, Lookup>, used: set<Id>)

  const Init := State(map[], map[], map[], Free, NoRemoval, map[], {})

  datatype Event =
    | AddMkdir(id: Id)
    | AddProfile(ok: bool)
    | AddSave(ok: bool)
    | AddUndo(ok: bool)
    | Activate(id: Id, others: set<Id>, ok: bool)
    | Deactivate(id: Id, ok: bool)
    | Mark(id: Id, ok: bool)
    | Purge(ok: bool)
    | EraseBegin
    | ErasePart
    | EraseEnd(ok: bool)
    | Drop(ok: bool)
    | Resolve(reader: Reader, id: Id)
    | OpenIndex(reader: Reader)
    | CloseIndex(reader: Reader)
    | Crash

  predicate Serving(m: map<Id, Slot>, id: Id) {
    id in m && !m[id].deleting
  }

  predicate Doomed(m: map<Id, Slot>, id: Id) {
    id in m && m[id].deleting
  }

  predicate Enabled(s: State, e: Event) {
    match e
    case AddMkdir(id) => s.section.Free? && id !in s.mem && id !in s.dirs && id !in s.used
    case AddProfile(_) => s.section.AddBuilding?
    case AddSave(_) => s.section.AddSaving?
    case AddUndo(_) => s.section.AddUndoing?
    case Activate(id, _, _) => s.section.Free? && Serving(s.mem, id)
    case Deactivate(id, _) => s.section.Free? && Serving(s.mem, id)
    // deleteMu is taken exclusively: no request is between its lookup and its end.
    case Mark(id, _) => s.section.Free? && s.removal.NoRemoval? && s.readers == map[] && id in s.mem && !s.mem[id].active
    case Purge(_) => s.removal.MarkedStage?
    case EraseBegin => s.section.Free? && s.removal.PurgedStage? && Doomed(s.mem, s.removal.id)
    case ErasePart => s.section.Erasing?
    case EraseEnd(_) => s.section.Erasing?
    case Drop(_) => s.section.Erased?
    case Resolve(reader, id) => s.section.Free? && s.removal.NoRemoval? && reader !in s.readers && Serving(s.mem, id)
    case OpenIndex(reader) => reader in s.readers && s.readers[reader].Resolved?
    case CloseIndex(reader) => reader in s.readers
    case Crash => true
  }

  function Write(s: State, m: map<Id, Slot>, ok: bool): State {
    if ok then s.(disk := m, mem := m) else s
  }

  function Activated(m: map<Id, Slot>, id: Id, others: set<Id>): map<Id, Slot> {
    map k | k in m :: if k == id then Slot(true, false)
                      else if k in others && m[k].active then Slot(false, m[k].deleting) else m[k]
  }

  function Step(s: State, e: Event): State {
    if Enabled(s, e) then Next(s, e) else s
  }

  function Next(s: State, e: Event): State
    requires Enabled(s, e)
  {
    match e
    case AddMkdir(id) => s.(dirs := s.dirs[id := Partial], section := AddBuilding(id), used := s.used + {id})
    case AddProfile(ok) =>
      if ok then s.(dirs := s.dirs[s.section.id := Whole], section := AddSaving(s.section.id))
      else s.(section := AddUndoing(s.section.id))
    case AddSave(ok) =>
      if ok then Write(s, s.mem[s.section.id := Slot(false, false)], true).(section := Free)
      else s.(section := AddUndoing(s.section.id))
    case AddUndo(ok) =>
      s.(dirs := if ok then s.dirs - {s.section.id} else s.dirs[s.section.id := Partial], section := Free)
    case Activate(id, others, ok) => Write(s, Activated(s.mem, id, others), ok)
    case Deactivate(id, ok) => Write(s, s.mem[id := Slot(false, false)], ok)
    case Mark(id, ok) =>
      if s.mem[id].deleting then s.(removal := MarkedStage(id))
      else if ok then Write(s, s.mem[id := Slot(false, true)], true).(removal := MarkedStage(id))
      else s
    case Purge(ok) => s.(removal := if ok then PurgedStage(s.removal.id) else NoRemoval)
    case EraseBegin => s.(section := Erasing(s.removal.id))
    case ErasePart =>
      s.(dirs := if s.section.id in s.dirs then s.dirs[s.section.id := Partial] else s.dirs)
    case EraseEnd(ok) =>
      if ok then s.(dirs := s.dirs - {s.section.id}, section := Erased(s.section.id))
      else s.(section := Free, removal := NoRemoval)
    case Drop(ok) => Write(s, s.mem - {s.section.id}, ok).(section := Free, removal := NoRemoval)
    case Resolve(reader, id) => s.(readers := s.readers[reader := Resolved(id)])
    // The guard in OpenIndex looks at the account as it was resolved.
    case OpenIndex(reader) => s.(readers := s.readers[reader := Opened(s.readers[reader].id)])
    case CloseIndex(reader) => s.(readers := s.readers - {reader})
    // The next daemon reads the registry again.
    case Crash => s.(mem := s.disk, section := Free, removal := NoRemoval, readers := map[])
  }

  function Run(s: State, es: seq<Event>): State
    decreases |es|
  {
    if es == [] then s else Run(Step(s, es[0]), es[1..])
  }

  /** Every account that serves has its whole state directory. */
  ghost predicate Housed(disk: map<Id, Slot>, dirs: map<Id, Dir>) {
    forall id :: Serving(disk, id) ==> id in dirs && dirs[id] == Whole
  }

  ghost predicate Inv(s: State) {
    && s.mem == s.disk && s.mem.Keys <= s.used
    && Housed(s.disk, s.dirs)
    && (forall id :: Doomed(s.disk, id) ==> !s.disk[id].active)
    && (s.section.AddBuilding? || s.section.AddSaving? || s.section.AddUndoing? ==>
          s.section.id !in s.mem && s.section.id in s.used)
    && (s.section.AddSaving? ==> s.section.id in s.dirs && s.dirs[s.section.id] == Whole)
    && (s.section.Erasing? || s.section.Erased? ==> Doomed(s.mem, s.section.id))
    && (s.section.Erased? ==> s.section.id !in s.dirs)
    && (s.removal.NoRemoval? || s.readers == map[])
    && (s.section.Erasing? || s.section.Erased? ==> s.removal.PurgedStage?)
    && (forall r :: r in s.readers ==> Serving(s.mem, s.readers[r].id))
  }

  lemma AddingKeeps(s: State, e: Event)
    requires Inv(s) && (e.AddMkdir? || e.AddProfile? || e.AddSave? || e.AddUndo?)
    ensures Inv(Step(s, e))
  {
  }

  lemma SwitchingKeeps(s: State, e: Event)
    requires Inv(s) && (e.Activate? || e.Deactivate?)
    ensures Inv(Step(s, e))
  {
  }

  lemma RemovingKeeps(s: State, e: Event)
    requires Inv(s) && (e.Mark? || e.Purge? || e.EraseBegin? || e.ErasePart? || e.EraseEnd? || e.Drop?)
    ensures Inv(Step(s, e))
  {
  }

  lemma ReadingKeeps(s: State, e: Event)
    requires Inv(s) && (e.Resolve? || e.OpenIndex? || e.CloseIndex? || e.Crash?)
    ensures Inv(Step(s, e))
  {
  }

  lemma StepKeeps(s: State, e: Event)
    requires Inv(s)
    ensures Inv(Step(s, e))
  {
    if e.AddMkdir? || e.AddProfile? || e.AddSave? || e.AddUndo? {
      AddingKeeps(s, e);
    } else if e.Activate? || e.Deactivate? {
      SwitchingKeeps(s, e);
    } else if e.Resolve? || e.OpenIndex? || e.CloseIndex? || e.Crash? {
      ReadingKeeps(s, e);
    } else {
      RemovingKeeps(s, e);
    }
  }

  lemma {:induction false} RunKeeps(s: State, es: seq<Event>)
    requires Inv(s)
    ensures Inv(Run(s, es))
    decreases |es|
  {
    if es != [] {
      StepKeeps(s, es[0]);
      RunKeeps(Step(s, es[0]), es[1..]);
    }
  }

  /** Over every run, with a crash anywhere: whoever is registered and not marked for deletion
      has a complete state directory, on disk, at every moment. */
  lemma ServingAccountsAreHoused(es: seq<Event>)
    ensures Housed(Run(Init, es).disk, Run(Init, es).dirs)
  {
    RunKeeps(Init, es);
  }

  /** Over every run: while a request holds an account it has looked up, and so while it has its
      index open, the account is registered, not marked for deletion, and its directory whole. */
  lemma IndexIsServed(es: seq<Event>, reader: Reader)
    ensures var s := Run(Init, es);
            reader in s.readers ==>
              Serving(s.disk, s.readers[reader].id) && s.readers[reader].id in s.dirs && s.dirs[s.readers[reader].id] == Whole
  {
    RunKeeps(Init, es);
  }

  /** State is damaged or removed only while the registry on disk carries the deletion marker,
      or while the account was never registered. */
  lemma StateGoesOnlyWhenMarked(s: State, e: Event, id: Id)
    requires Inv(s) && id in s.dirs && s.dirs[id] == Whole
    requires !(id in Step(s, e).dirs && Step(s, e).dirs[id] == Whole)
    ensures Doomed(s.disk, id) || id !in s.disk
  {
  }

  /** The identifier has been used, and serves no account, now or when the running section ends. */
  predicate Condemned(s: State, id: Id) {
    && id in s.used && (id in s.disk ==> s.disk[id].deleting)
    && s.section != AddBuilding(id) && s.section != AddSaving(id)
  }

  lemma CondemnedStays(s: State, e: Event, id: Id)
    requires Inv(s) && Condemned(s, id)
    ensures Condemned(Step(s, e), id)
  {
  }

  lemma {:induction false} CondemnedForever(s: State, es: seq<Event>, id: Id)
    requires Inv(s) && Condemned(s, id)
    ensures Condemned(Run(s, es), id)
    decreases |es|
  {
    if es != [] {
      CondemnedStays(s, es[0], id);
      StepKeeps(s, es[0]);
      CondemnedForever(Step(s, es[0]), es[1..], id);
    }
  }

  /** Over every later run, whatever activations, additions and crashes it holds: a marked account
      stays marked and inactive until it disappears, and its identifier never serves again. */
  lemma DoomedForever(s: State, es: seq<Event>, id: Id)
    requires Inv(s) && Doomed(s.disk, id)
    ensures var t := Run(s, es); id in t.disk ==> t.disk[id] == Slot(false, true)
    ensures !Serving(Run(s, es).mem, id) && !Serving(Run(s, es).disk, id)
  {
    assert Condemned(s, id);
    CondemnedForever(s, es, id);
    RunKeeps(s, es);
    assert Doomed(Run(s, es).disk, id) ==> !Run(s, es).disk[id].active;
  }

  lemma RunCons(s: State, e: Event, rest: seq<Event>)
    ensures Run(s, [e] + rest) == Run(Step(s, e), rest)
  {
    assert ([e] + rest)[1..] == rest;
  }

  lemma StepsToPurged(s: State, id: Id)
    requires Inv(s) && Doomed(s.disk, id)
    ensures Step(Step(Step(s, Crash), Mark(id, false)), Purge(true)) ==
            s.(mem := s.disk, section := Free, removal := PurgedStage(id), readers := map[])
  {
    assert Step(s, Crash) == s.(mem := s.disk, section := Free, removal := NoRemoval, readers := map[]);
  }

  /** A restarted daemon finds the marker and gets as far as before. */
  lemma ResumesAtPurged(s: State, id: Id, rest: seq<Event>)
    requires Inv(s) && Doomed(s.disk, id)
    ensures Run(s, [Crash] + ([Mark(id, false)] + ([Purge(true)] + rest))) ==
            Run(s.(mem := s.disk, section := Free, removal := PurgedStage(id), readers := map[]), rest)
  {
    RunCons(s, Crash, [Mark(id, false)] + ([Purge(true)] + rest));
    RunCons(Step(s, Crash), Mark(id, false), [Purge(true)] + rest);
    RunCons(Step(Step(s, Crash), Mark(id, false)), Purge(true), rest);
    StepsToPurged(s, id);
  }

  lemma ErasesAndDrops(s: State, id: Id)
    requires s.mem == s.disk && s.section.Free? && s.removal == PurgedStage(id) && Doomed(s.disk, id)
    ensures var s' := Run(s, [EraseBegin, EraseEnd(true), Drop(true)]);
            s'.disk == s.disk - {id} && s'.dirs == s.dirs - {id} && s'.section.Free? && s'.removal.NoRemoval?
  {
    var s1 := Step(s, EraseBegin);
    var s2 := Step(s1, EraseEnd(true));
    assert Run(s, [EraseBegin, EraseEnd(true), Drop(true)]) == Run(s1, [EraseEnd(true), Drop(true)]);
    assert Run(s1, [EraseEnd(true), Drop(true)]) == Run(s2, [Drop(true)]);
    assert Run(s2, [Drop(true)]) == Step(s2, Drop(true));
  }

  /** Repeating the removal finishes it from wherever an earlier attempt was cut off: the state
      and the marker are gone, and every other account is as before. */
  lemma RetryFinishes(s: State, id: Id)
    requires Inv(s) && Doomed(s.disk, id)
    ensures var s' := Run(s, [Crash, Mark(id, false), Purge(true), EraseBegin, EraseEnd(true), Drop(true)]);
            s'.disk == s.disk - {id} && s'.dirs == s.dirs - {id} && s'.section.Free? && s'.removal.NoRemoval?
  {
    assert [Crash, Mark(id, false), Purge(true), EraseBegin, EraseEnd(true), Drop(true)] ==
           [Crash] + ([Mark(id, false)] + ([Purge(true)] + [EraseBegin, EraseEnd(true), Drop(true)]));
    ResumesAtPurged(s, id, [EraseBegin, EraseEnd(true), Drop(true)]);
    ErasesAndDrops(s.(mem := s.disk, section := Free, removal := PurgedStage(id), readers := map[]), id);
  }
}
