/** The migration of profile metadata from schema 1 to schema 2 in the account's state directory:
    one system call per step, each of which may fail, with a crash of the daemon or of the machine
    possible between any two. */
module ProfileMigration {
  import opened ProfileDocuments

  /** One attempt: the names' random part, the candidate's file and the legacy file. */
  datatype Job = Job(n: nat, ino: Ino, legacy: Ino)

  datatype Stage =
    | Creating | Writing | Flushing | Publishing   // the temporary file becomes the candidate
    | Discarding                                   // remove the temporary file again
    | SyncPublished | Exchanging
    | Checking | SyncExchanged                     // the candidate is in place
    | Dropping | SyncDropped                       // remove the displaced legacy file
    | RollingBack | SyncBack | CheckingBack        // exchange again
    | Removing | SyncRemoved                       // remove the candidate

  datatype Pc = Idle | At(job: Job, stage: Stage)

  /** How the last attempt ended. */
  datatype Result = None | Done | KeptLegacy(legacy: Ino) | KeptCurrent

  datatype State = State(
    dir: Dir, files: map<Ino, File>, pc: Pc, result: Result, names: set<nat>, prior: Metadata, target: Metadata)

  datatype Event =
    | Begin(n: nat, ino: Ino)
    | Do(ok: bool)
    | Crash
    | PowerLoss(version: Entries)

  predicate Names(entries: Entries, files: map<Ino, File>, name: Name, m: Metadata) {
    name in entries && entries[name] in files && files[entries[name]] == File(Meta(m), true)
  }

  function Exchange(entries: Entries, a: Name, b: Name): Entries
    requires a in entries && b in entries
  {
    entries[a := entries[b]][b := entries[a]]
  }

  predicate Enabled(s: State, e: Event) {
    match e
    case Begin(n, ino) => s.pc.Idle? && n !in s.names && ino !in s.files
    case Do(_) => s.pc.At?
    case Crash => true
    case PowerLoss(v) => v in s.dir.versions
  }

  function Step(s: State, e: Event): State {
    if Enabled(s, e) then Next(s, e) else s
  }

  /** What a system call of the stage does to the listing when it succeeds. */
  function EntriesAfter(entries: Entries, job: Job, stage: Stage): Entries {
    match stage
    case Creating => entries[Temp(job.n) := job.ino]
    case Discarding => entries - {Temp(job.n)}
    case Publishing => (entries - {Temp(job.n)})[Candidate(job.n) := job.ino]
    case Exchanging => Swapped(entries, job)
    case RollingBack => Swapped(entries, job)
    case Dropping => entries - {Candidate(job.n)}
    case Removing => entries - {Candidate(job.n)}
    case _ => entries
  }

  function Swapped(entries: Entries, job: Job): Entries {
    if MetadataName in entries && Candidate(job.n) in entries then Exchange(entries, MetadataName, Candidate(job.n)) else entries
  }

  predicate IsSync(stage: Stage) {
    stage.SyncPublished? || stage.SyncExchanged? || stage.SyncDropped? || stage.SyncBack? || stage.SyncRemoved?
  }

  function DirAfter(d: Dir, job: Job, stage: Stage, ok: bool): Dir {
    if !ok || stage.Writing? || stage.Flushing? || stage.Checking? || stage.CheckingBack? then d
    else if IsSync(stage) then SyncedDir(d)
    else Changed(d, EntriesAfter(d.entries, job, stage))
  }

  function FilesAfter(files: map<Ino, File>, job: Job, stage: Stage, ok: bool, target: Metadata): map<Ino, File> {
    if !ok then files
    else
      match stage
      case Creating => files[job.ino := File(Torn, false)]
      case Writing => files[job.ino := File(Meta(target), false)]
      case Flushing => if job.ino in files then files[job.ino := files[job.ino].(synced := true)] else files
      case _ => files
  }

  datatype After = Goto(stage: Stage) | End(result: Result)

  function Following(job: Job, stage: Stage, ok: bool): After {
    match stage
    case Creating => if ok then Goto(Writing) else End(KeptLegacy(job.legacy))
    case Writing => if ok then Goto(Flushing) else Goto(Discarding)
    case Flushing => if ok then Goto(Publishing) else Goto(Discarding)
    case Publishing => if ok then Goto(SyncPublished) else Goto(Discarding)
    case Discarding => End(KeptLegacy(job.legacy))
    case SyncPublished => if ok then Goto(Exchanging) else Goto(Removing)
    case Exchanging => if ok then Goto(Checking) else Goto(Removing)
    case Checking => if ok then Goto(SyncExchanged) else Goto(RollingBack)
    case SyncExchanged => if ok then Goto(Dropping) else Goto(RollingBack)
    case Dropping => if ok then Goto(SyncDropped) else End(KeptCurrent)
    case SyncDropped => End(if ok then Done else KeptCurrent)
    case RollingBack => if ok then Goto(SyncBack) else End(KeptCurrent)
    case SyncBack => if ok then Goto(CheckingBack) else End(KeptLegacy(job.legacy))
    case CheckingBack => if ok then Goto(Removing) else End(KeptLegacy(job.legacy))
    case Removing => if ok then Goto(SyncRemoved) else End(KeptLegacy(job.legacy))
    case SyncRemoved => End(KeptLegacy(job.legacy))
  }

  function Next(s: State, e: Event): State
    requires Enabled(s, e)
  {
    match e
    // A schema-2 document is accepted as it is; only a legacy one is migrated.
    case Begin(n, ino) =>
      if Names(s.dir.entries, s.files, MetadataName, s.prior) then
        s.(pc := At(Job(n, ino, s.dir.entries[MetadataName]), Creating), result := None, names := s.names + {n})
      else s.(result := if Names(s.dir.entries, s.files, MetadataName, s.target) then Done else None)
    case Do(ok) =>
      var after := Following(s.pc.job, s.pc.stage, ok);
      s.(dir := DirAfter(s.dir, s.pc.job, s.pc.stage, ok),
         files := FilesAfter(s.files, s.pc.job, s.pc.stage, ok, s.target),
         pc := if after.Goto? then At(s.pc.job, after.stage) else Idle,
         result := if after.Goto? then None else after.result)
    case Crash => s.(pc := Idle, result := None)
    case PowerLoss(v) => s.(dir := Dir(v, {v}), files := Shaken(s.files), pc := Idle, result := None)
  }

  function Run(s: State, es: seq<Event>): State
    decreases |es|
  {
    if es == [] then s else Run(Step(s, es[0]), es[1..])
  }

  // Safety --------------------------------------------------------------------------------------------

  /** The metadata path names a whole document of either schema, safely on disk. */
  predicate Whole(entries: Entries, files: map<Ino, File>, prior: Metadata, target: Metadata) {
    Names(entries, files, MetadataName, prior) || Names(entries, files, MetadataName, target)
  }

  /** What one attempt may rely on. */
  predicate JobOk(entries: Entries, files: map<Ino, File>, job: Job, stage: Stage, prior: Metadata, target: Metadata) {
    match stage
    case Creating => job.ino !in files && Holds(entries, files, job.legacy, prior)
    case Writing => job.ino in files && !files[job.ino].synced && Holds(entries, files, job.legacy, prior)
    case Flushing => job.ino in files && files[job.ino] == File(Meta(target), false) && Holds(entries, files, job.legacy, prior)
    case Publishing => job.ino in files && files[job.ino] == File(Meta(target), true) && Holds(entries, files, job.legacy, prior)
    case Discarding => Holds(entries, files, job.legacy, prior)
    case SyncPublished => Both(entries, files, job, prior, target)
    case Exchanging => Both(entries, files, job, prior, target)
    case Checking => Traded(entries, files, job, prior, target)
    case SyncExchanged => Traded(entries, files, job, prior, target)
    case RollingBack => Traded(entries, files, job, prior, target)
    case Dropping => Traded(entries, files, job, prior, target)
    case SyncDropped => Names(entries, files, MetadataName, target)
    case SyncBack => Both(entries, files, job, prior, target)
    case CheckingBack => Both(entries, files, job, prior, target)
    case Removing => Both(entries, files, job, prior, target)
    case SyncRemoved => Holds(entries, files, job.legacy, prior)
  }

  predicate Holds(entries: Entries, files: map<Ino, File>, legacy: Ino, prior: Metadata) {
    Names(entries, files, MetadataName, prior) && entries[MetadataName] == legacy
  }

  /** The legacy file under the metadata name and the new one beside it. */
  predicate Both(entries: Entries, files: map<Ino, File>, job: Job, prior: Metadata, target: Metadata) {
    Holds(entries, files, job.legacy, prior) && Names(entries, files, Candidate(job.n), target)
  }

  /** The other way round. */
  predicate Traded(entries: Entries, files: map<Ino, File>, job: Job, prior: Metadata, target: Metadata) {
    && Names(entries, files, MetadataName, target)
    && Names(entries, files, Candidate(job.n), prior) && entries[Candidate(job.n)] == job.legacy
  }

  ghost predicate AllWhole(versions: set<Entries>, files: map<Ino, File>, prior: Metadata, target: Metadata) {
    forall v :: v in versions ==> Whole(v, files, prior, target)
  }

  predicate ResultOk(entries: Entries, files: map<Ino, File>, result: Result, prior: Metadata, target: Metadata) {
    match result
    case None => true
    case Done => Names(entries, files, MetadataName, target)
    case KeptLegacy(legacy) => Holds(entries, files, legacy, prior)
    case KeptCurrent => Names(entries, files, MetadataName, target)
  }

  ghost predicate Inv(s: State) {
    && s.dir.entries in s.dir.versions && s.prior != s.target
    && AllWhole(s.dir.versions, s.files, s.prior, s.target)
    && (s.pc.At? ==> JobOk(s.dir.entries, s.files, s.pc.job, s.pc.stage, s.prior, s.target))
    && ResultOk(s.dir.entries, s.files, s.result, s.prior, s.target)
  }

  /** The state directory of an account bound under schema 1. */
  ghost predicate Start(s: State) {
    && s.dir.versions == {s.dir.entries} && Names(s.dir.entries, s.files, MetadataName, s.prior)
    && s.pc.Idle? && s.result.None? && s.prior != s.target
  }

  /** No stage touches a file that a listing shows as metadata. */
  lemma FilesKeepWhole(s: State, ok: bool)
    requires Inv(s) && s.pc.At?
    ensures AllWhole(s.dir.versions, FilesAfter(s.files, s.pc.job, s.pc.stage, ok, s.target), s.prior, s.target)
  {
  }

  lemma DoKeeps(s: State, ok: bool)
    requires Inv(s) && s.pc.At?
    ensures Inv(Next(s, Do(ok)))
  {
    FilesKeepWhole(s, ok);
    match s.pc.stage
    case Creating =>
    case Writing =>
    case Flushing =>
    case Publishing =>
    case Discarding =>
    case SyncPublished =>
    case Exchanging =>
    case Checking =>
    case SyncExchanged =>
    case Dropping =>
    case SyncDropped =>
    case RollingBack =>
    case SyncBack =>
    case CheckingBack =>
    case Removing =>
    case SyncRemoved =>
  }

  lemma StepKeeps(s: State, e: Event)
    requires Inv(s)
    ensures Inv(Step(s, e))
  {
    if e.Do? && s.pc.At? {
      DoKeeps(s, e.ok);
    }
  }

  lemma {:induction false} RunKeeps(s: State, es: seq<Event>)
    requires Inv(s)
    ensures Inv(Run(s, es)) && Run(s, es).prior == s.prior && Run(s, es).target == s.target
    decreases |es|
  {
    if es != [] {
      StepKeeps(s, es[0]);
      RunKeeps(Step(s, es[0]), es[1..]);
    }
  }
}
