/** Binding an account to its Android data directory: a sentinel is published inside the data
    directory before the metadata is published in the state directory, and a failure takes both
    back in the opposite order.  One system call per step; any of them may fail, and the daemon or
    the machine may crash between any two. */
module ProfileBinding {
  import opened ProfileDocuments

  /** `create`: the sentinel is this attempt's own; otherwise it was found by recovery. */
  datatype Job = Job(n: nat, sIno: Ino, mIno: Ino, meta: Metadata, create: bool)

  datatype Stage =
    | SCreate | SWrite | SFlush | SRename | SSync | SDiscard
    | Canonical
    | MCreate | MWrite | MFlush | MRename | MSync | MDiscard
    | Verify
    | MDrop | MDropSync | SDrop | SDropSync

  datatype Pc = Idle | At(job: Job, stage: Stage)

  datatype Result = None | Done | Failed | Refused

  /** The account, the data directory's path and its pinned inode stay what they are. */
  datatype Site = Site(account: Token, dataDir: Token, inode: Token)

  datatype State = State(data: Dir, home: Dir, files: map<Ino, File>, pc: Pc, result: Result, names: set<nat>, site: Site)

  datatype Event =
    | Begin(n: nat, sIno: Ino, mIno: Ino, profile: Token, createdAt: Token)
    | Do(ok: bool)
    | Crash
    | PowerLoss(data: Entries, home: Entries)

  predicate Enabled(s: State, e: Event) {
    match e
    case Begin(n, sIno, mIno, profile, createdAt) =>
      && s.pc.Idle? && n !in s.names && sIno !in s.files && mIno !in s.files && sIno != mIno
      && profile != 0 && createdAt != 0
    // A rename does not replace.
    case Do(ok) =>
      && s.pc.At? && (ok && s.pc.stage.SRename? ==> SentinelName !in s.data.entries)
      && (ok && s.pc.stage.MRename? ==> MetadataName !in s.home.entries)
    case Crash => true
    case PowerLoss(data, home) => data in s.data.versions && home in s.home.versions
  }

  function DataAfter(d: Dir, job: Job, stage: Stage, ok: bool): Dir {
    if !ok then d
    else
      match stage
      case SCreate => Changed(d, d.entries[Temp(job.n) := job.sIno])
      case SRename => Changed(d, (d.entries - {Temp(job.n)})[SentinelName := job.sIno])
      case SDiscard => Changed(d, d.entries - {Temp(job.n)})
      case SDrop => Changed(d, d.entries - {SentinelName})
      case SSync => SyncedDir(d)
      case SDropSync => SyncedDir(d)
      case _ => d
  }

  function HomeAfter(d: Dir, job: Job, stage: Stage, ok: bool): Dir {
    if !ok then d
    else
      match stage
      case MCreate => Changed(d, d.entries[Temp(job.n) := job.mIno])
      case MRename => Changed(d, (d.entries - {Temp(job.n)})[MetadataName := job.mIno])
      case MDiscard => Changed(d, d.entries - {Temp(job.n)})
      case MDrop => Changed(d, d.entries - {MetadataName})
      case MSync => SyncedDir(d)
      case MDropSync => SyncedDir(d)
      case _ => d
  }

  function Flushed(files: map<Ino, File>, i: Ino): map<Ino, File> {
    if i in files then files[i := files[i].(synced := true)] else files
  }

  function FilesAfter(files: map<Ino, File>, job: Job, stage: Stage, ok: bool): map<Ino, File> {
    if !ok then files
    else
      match stage
      case SCreate => files[job.sIno := File(Torn, false)]
      case SWrite => files[job.sIno := File(Mark(SentinelFor(job.meta)), false)]
      case SFlush => Flushed(files, job.sIno)
      case MCreate => files[job.mIno := File(Torn, false)]
      case MWrite => files[job.mIno := File(Meta(job.meta), false)]
      case MFlush => Flushed(files, job.mIno)
      case _ => files
  }

  datatype After = Goto(stage: Stage) | End(result: Result)

  /** What is left to undo once the metadata is gone or was never published. */
  function Undo(job: Job): After {
    if job.create then Goto(SDrop) else End(Failed)
  }

  function Following(job: Job, stage: Stage, ok: bool): After {
    match stage
    case SCreate => if ok then Goto(SWrite) else End(Failed)
    case SWrite => if ok then Goto(SFlush) else Goto(SDiscard)
    case SFlush => if ok then Goto(SRename) else Goto(SDiscard)
    case SRename => if ok then Goto(SSync) else Goto(SDiscard)
    case SSync => if ok then Goto(Canonical) else Goto(SDrop)
    case SDiscard => End(Failed)
    case Canonical => if ok then Goto(MCreate) else Undo(job)
    case MCreate => if ok then Goto(MWrite) else Undo(job)
    case MWrite => if ok then Goto(MFlush) else Goto(MDiscard)
    case MFlush => if ok then Goto(MRename) else Goto(MDiscard)
    case MRename => if ok then Goto(MSync) else Goto(MDiscard)
    case MSync => if ok then Goto(Verify) else Goto(MDrop)
    case MDiscard => Undo(job)
    case Verify => if ok then End(Done) else Goto(MDrop)
    case MDrop => if ok then Goto(MDropSync) else Undo(job)
    case MDropSync => Undo(job)
    case SDrop => if ok then Goto(SDropSync) else End(Failed)
    case SDropSync => End(Failed)
  }

  function NewMetadata(site: Site, profile: Token, createdAt: Token): Metadata {
    Metadata(CurrentSchema, site.account, profile, site.dataDir, 0, site.inode, createdAt)
  }

  /** The data directory holds a readable sentinel of the account and nothing else. */
  predicate OnlySentinel(entries: Entries, files: map<Ino, File>, account: Token) {
    && entries.Keys == {SentinelName} && entries[SentinelName] in files
    && files[entries[SentinelName]].content.Mark? && Standalone(files[entries[SentinelName]].content.s, account)
  }

  /** `preparePersistentProfile` without a container: nothing to bind, bind afresh, finish what an
      earlier attempt left, or refuse. */
  function AfterBegin(s: State, n: nat, sIno: Ino, mIno: Ino, profile: Token, createdAt: Token): State {
    if MetadataName in s.home.entries then s
    else if s.data.entries == map[] then
      s.(pc := At(Job(n, sIno, mIno, NewMetadata(s.site, profile, createdAt), true), SCreate), result := None, names := s.names + {n})
    else if OnlySentinel(s.data.entries, s.files, s.site.account) then
      var sentinel := s.files[s.data.entries[SentinelName]].content.s;
      s.(pc := At(Job(n, sIno, mIno, MetadataFor(sentinel, s.site.dataDir, s.site.inode), false), Canonical),
         result := None, names := s.names + {n})
    else s.(result := Refused)
  }

  function Step(s: State, e: Event): State {
    if Enabled(s, e) then Next(s, e) else s
  }

  function Next(s: State, e: Event): State
    requires Enabled(s, e)
  {
    match e
    case Begin(n, sIno, mIno, profile, createdAt) => AfterBegin(s, n, sIno, mIno, profile, createdAt)
    case Do(ok) =>
      var job, stage := s.pc.job, s.pc.stage;
      var after := Following(job, stage, ok);
      s.(data := DataAfter(s.data, job, stage, ok), home := HomeAfter(s.home, job, stage, ok),
         files := FilesAfter(s.files, job, stage, ok),
         pc := if after.Goto? then At(job, after.stage) else Idle,
         result := if after.Goto? then None else after.result)
    case Crash => s.(pc := Idle, result := None)
    case PowerLoss(data, home) =>
      s.(data := Dir(data, {data}), home := Dir(home, {home}), files := Shaken(s.files), pc := Idle, result := None)
  }

  function Run(s: State, es: seq<Event>): State
    decreases |es|
  {
    if es == [] then s else Run(Step(s, es[0]), es[1..])
  }

  // What holds whatever fails ---------------------------------------------------------------------------

  /** The listing shows the sentinel of `m`, whole and on disk. */
  predicate Marked(data: Entries, files: map<Ino, File>, m: Metadata) {
    SentinelName in data && data[SentinelName] in files && files[data[SentinelName]] == File(Mark(SentinelFor(m)), true)
  }

  predicate Sound(job: Job, site: Site) {
    ValidMetadata(job.meta, site.account, site.inode) && ValidPath(job.meta, site.dataDir) && job.meta.schema == CurrentSchema
  }

  /** The stage's file has the given content. */
  predicate Has(files: map<Ino, File>, i: Ino, f: File) {
    i in files && files[i] == f
  }

  predicate SentinelOk(data: Entries, files: map<Ino, File>, job: Job, stage: Stage) {
    match stage
    case SCreate => job.sIno !in files && SentinelName !in data
    case SWrite => Has(files, job.sIno, File(Torn, false)) && SentinelName !in data
    case SFlush => Has(files, job.sIno, File(Mark(SentinelFor(job.meta)), false)) && SentinelName !in data
    case SRename => Has(files, job.sIno, File(Mark(SentinelFor(job.meta)), true)) && SentinelName !in data
    case SDiscard => SentinelName !in data
    case SDropSync => SentinelName !in data
    case _ => Marked(data, files, job.meta)
  }

  predicate MetadataOk(home: Entries, files: map<Ino, File>, job: Job, stage: Stage) {
    match stage
    case MCreate => job.mIno !in files && MetadataName !in home
    case MWrite => Has(files, job.mIno, File(Torn, false)) && MetadataName !in home
    case MFlush => Has(files, job.mIno, File(Meta(job.meta), false)) && MetadataName !in home
    case MRename => Has(files, job.mIno, File(Meta(job.meta), true)) && MetadataName !in home
    case MSync => Bears(home, files, job.meta)
    case Verify => Bears(home, files, job.meta)
    case MDrop => Bears(home, files, job.meta)
    case MDropSync => MetadataName !in home
    case MDiscard => MetadataName !in home
    case SDrop => true
    case SDropSync => true
    case _ => job.mIno !in files && MetadataName !in home
  }

  predicate Bears(home: Entries, files: map<Ino, File>, m: Metadata) {
    MetadataName in home && Has(files, home[MetadataName], File(Meta(m), true))
  }

  /** Stages in which this attempt makes or takes back the sentinel. */
  predicate OwnsSentinel(stage: Stage) {
    || stage.SCreate? || stage.SWrite? || stage.SFlush? || stage.SRename? || stage.SSync? || stage.SDiscard?
    || stage.SDrop? || stage.SDropSync?
  }

  predicate JobOk(data: Entries, home: Entries, files: map<Ino, File>, job: Job, stage: Stage, site: Site) {
    && Sound(job, site) && job.sIno != job.mIno
    && SentinelOk(data, files, job, stage) && MetadataOk(home, files, job, stage)
    && (OwnsSentinel(stage) ==> job.create)
  }

  /** Every sentinel that a listing shows is whole. */
  predicate SentinelsWhole(data: Entries, files: map<Ino, File>) {
    SentinelName in data ==>
      data[SentinelName] in files && files[data[SentinelName]].content.Mark? && files[data[SentinelName]].synced
  }

  ghost predicate Core(s: State) {
    && s.data.entries in s.data.versions && s.home.entries in s.home.versions
    && s.site.inode != 0 && s.site.dataDir != 0
    && (forall v :: v in s.data.versions ==> SentinelsWhole(v, s.files))
    && (s.pc.At? ==> JobOk(s.data.entries, s.home.entries, s.files, s.pc.job, s.pc.stage, s.site))
  }

  lemma DoFiles(s: State, ok: bool)
    requires Core(s) && Enabled(s, Do(ok))
    ensures var t := Next(s, Do(ok));
            && t.data.entries in t.data.versions && t.home.entries in t.home.versions
            && forall v :: v in t.data.versions ==> SentinelsWhole(v, t.files)
  {
  }

  lemma DoJob(s: State, ok: bool)
    requires s.pc.At? && JobOk(s.data.entries, s.home.entries, s.files, s.pc.job, s.pc.stage, s.site) && Enabled(s, Do(ok))
    ensures var t := Next(s, Do(ok));
            t.pc.At? ==> JobOk(t.data.entries, t.home.entries, t.files, t.pc.job, t.pc.stage, t.site)
  {
    match s.pc.stage
    case SCreate =>
    case SWrite =>
    case SFlush =>
    case SRename =>
    case SSync =>
    case SDiscard =>
    case Canonical =>
    case MCreate =>
    case MWrite =>
    case MFlush =>
    case MRename =>
    case MSync =>
    case MDiscard =>
    case Verify =>
    case MDrop =>
    case MDropSync =>
    case SDrop =>
    case SDropSync =>
  }

  lemma StepCore(s: State, e: Event)
    requires Core(s)
    ensures Core(Step(s, e)) && Step(s, e).site == s.site
  {
    if Enabled(s, e) {
      match e
      case Do(ok) =>
        DoFiles(s, ok);
        DoJob(s, ok);
      case _ =>
    }
  }

  // Metadata implies sentinel -----------------------------------------------------------------------------

  /** Should these two listings be what is found, then metadata has its matching sentinel. */
  predicate Covered(home: Entries, data: Entries, files: map<Ino, File>) {
    MetadataName in home ==>
      && home[MetadataName] in files && files[home[MetadataName]].synced && files[home[MetadataName]].content.Meta?
      && SentinelName in data && data[SentinelName] in files && files[data[SentinelName]].synced
      && files[data[SentinelName]].content.Mark?
      && Matches(files[data[SentinelName]].content.s, files[home[MetadataName]].content.m)
  }

  ghost predicate Cover(homes: set<Entries>, datas: set<Entries>, files: map<Ino, File>) {
    forall h, d :: h in homes && d in datas ==> Covered(h, d, files)
  }

  ghost predicate NoMeta(homes: set<Entries>) {
    forall h :: h in homes ==> MetadataName !in h
  }

  ghost predicate AllMarked(datas: set<Entries>, files: map<Ino, File>, m: Metadata) {
    forall d :: d in datas ==> Marked(d, files, m)
  }

  predicate AtStage(s: State, stage: Stage) {
    s.pc.At? && s.pc.stage == stage
  }

  /** `homes` and `datas` are the listings of the two directories that may be found: every pair is
      covered, and an attempt that still makes its sentinel, or has just removed it, knows of no metadata. */
  ghost predicate Safe(homes: set<Entries>, datas: set<Entries>, s: State) {
    && s.home.entries in homes && s.data.entries in datas
    && Cover(homes, datas, s.files)
    && (s.pc.At? && OwnsSentinel(s.pc.stage) && !s.pc.stage.SDrop? ==> NoMeta(homes))
  }

  /** The two system calls that can part metadata from its sentinel: removing the sentinel while
      some listing shows metadata, and naming the metadata while some listing lacks its sentinel. */
  ghost predicate Hazard(s: State, e: Event, homes: set<Entries>, datas: set<Entries>) {
    && e == Do(true) && Enabled(s, e)
    && ((AtStage(s, SDrop) && !NoMeta(homes)) || (AtStage(s, MRename) && !AllMarked(datas, s.files, s.pc.job.meta)))
  }

  /** The listings to reckon with after a step: none but old ones and the new one, and all the old
      ones of a directory that was left alone. */
  ghost predicate Reckoned(s: State, ok: bool, homes: set<Entries>, datas: set<Entries>, homes': set<Entries>, datas': set<Entries>)
    requires Enabled(s, Do(ok))
  {
    var t := Next(s, Do(ok));
    && t.home.entries in homes' && homes' <= homes + {t.home.entries} && (t.home == s.home ==> homes' == homes)
    && t.data.entries in datas' && datas' <= datas + {t.data.entries} && (t.data == s.data ==> datas' == datas)
  }

  /** Flushed files stay as they are. */
  ghost predicate Grown(files: map<Ino, File>, files': map<Ino, File>) {
    forall i :: i in files && files[i].synced ==> i in files' && files'[i] == files[i]
  }

  lemma FilesGrow(files: map<Ino, File>, data: Entries, home: Entries, job: Job, stage: Stage, site: Site, ok: bool)
    requires JobOk(data, home, files, job, stage, site)
    ensures Grown(files, FilesAfter(files, job, stage, ok))
  {
  }

  lemma GrownCover(homes: set<Entries>, datas: set<Entries>, files: map<Ino, File>, files': map<Ino, File>)
    requires Grown(files, files') && Cover(homes, datas, files)
    ensures Cover(homes, datas, files')
  {
  }

  /** Making the sentinel, and syncing its removal: no listing shows metadata. */
  lemma OwnStageSafe(s: State, ok: bool, homes: set<Entries>, datas: set<Entries>, homes': set<Entries>, datas': set<Entries>)
    requires Safe(homes, datas, s) && Enabled(s, Do(ok)) && Reckoned(s, ok, homes, datas, homes', datas')
    requires OwnsSentinel(s.pc.stage) && !s.pc.stage.SDrop?
    ensures Safe(homes', datas', Next(s, Do(ok)))
  {
    assert NoMeta(homes');
  }

  lemma DropSafe(s: State, ok: bool, homes: set<Entries>, datas: set<Entries>, homes': set<Entries>, datas': set<Entries>)
    requires Safe(homes, datas, s) && Enabled(s, Do(ok)) && Reckoned(s, ok, homes, datas, homes', datas')
    requires AtStage(s, SDrop) && !Hazard(s, Do(ok), homes, datas)
    ensures Safe(homes', datas', Next(s, Do(ok)))
  {
  }

  /** Publishing, checking and removing the metadata leave the data directory alone. */
  lemma OtherStageSafe(s: State, ok: bool, homes: set<Entries>, datas: set<Entries>, homes': set<Entries>, datas': set<Entries>)
    requires Core(s) && Safe(homes, datas, s) && Enabled(s, Do(ok)) && Reckoned(s, ok, homes, datas, homes', datas')
    requires !OwnsSentinel(s.pc.stage) && !Hazard(s, Do(ok), homes, datas)
    ensures Safe(homes', datas', Next(s, Do(ok)))
  {
    var job, t := s.pc.job, Next(s, Do(ok));
    FilesGrow(s.files, s.data.entries, s.home.entries, job, s.pc.stage, s.site, ok);
    GrownCover(homes, datas, s.files, t.files);
    assert datas' == datas;
    NewListing(s, ok, homes, datas);
  }

  /** The listing of the state directory after the call is covered. */
  lemma NewListing(s: State, ok: bool, homes: set<Entries>, datas: set<Entries>)
    requires Core(s) && Safe(homes, datas, s) && Enabled(s, Do(ok)) && Cover(homes, datas, Next(s, Do(ok)).files)
    requires !OwnsSentinel(s.pc.stage) && !Hazard(s, Do(ok), homes, datas)
    ensures forall d :: d in datas ==> Covered(Next(s, Do(ok)).home.entries, d, Next(s, Do(ok)).files)
  {
    var t := Next(s, Do(ok));
    if AtStage(s, MRename) && ok {
      assert Bears(t.home.entries, t.files, s.pc.job.meta) && t.files == s.files;
    } else {
      assert MetadataName in t.home.entries ==> t.home.entries == s.home.entries;
    }
  }

  /** A system call keeps every pair of listings covered, unless it is one of the two hazards. */
  lemma DoSafe(s: State, ok: bool, homes: set<Entries>, datas: set<Entries>, homes': set<Entries>, datas': set<Entries>)
    requires Core(s) && Safe(homes, datas, s) && Enabled(s, Do(ok)) && Reckoned(s, ok, homes, datas, homes', datas')
    requires !Hazard(s, Do(ok), homes, datas)
    ensures Safe(homes', datas', Next(s, Do(ok)))
  {
    if AtStage(s, SDrop) {
      DropSafe(s, ok, homes, datas, homes', datas');
    } else if OwnsSentinel(s.pc.stage) {
      OwnStageSafe(s, ok, homes, datas, homes', datas');
    } else {
      OtherStageSafe(s, ok, homes, datas, homes', datas');
    }
  }

  /** Each hazard really leaves a pair of listings with metadata and without its sentinel. */
  lemma HazardParts(s: State, ok: bool, homes: set<Entries>, datas: set<Entries>, homes': set<Entries>, datas': set<Entries>)
    requires Core(s) && Hazard(s, Do(ok), homes, datas) && Reckoned(s, ok, homes, datas, homes', datas')
    ensures !Cover(homes', datas', Next(s, Do(ok)).files)
  {
    var t := Next(s, Do(ok));
    if AtStage(s, SDrop) {
      var h :| h in homes && MetadataName in h;
      assert h in homes' && t.data.entries in datas' && !Covered(h, t.data.entries, t.files);
    } else {
      var d :| d in datas && !Marked(d, s.files, s.pc.job.meta);
      assert Bears(t.home.entries, t.files, s.pc.job.meta) && t.files == s.files;
      assert t.home.entries in homes' && d in datas' && !Covered(t.home.entries, d, t.files);
    }
  }

  /** Starting an attempt brings no listing; an empty data directory rules out metadata anywhere. */
  lemma BeginSafe(s: State, e: Event, homes: set<Entries>, datas: set<Entries>)
    requires Safe(homes, datas, s) && e.Begin? && Enabled(s, e)
    ensures Safe(homes, datas, Step(s, e))
  {
    if s.data.entries == map[] {
      assert forall h :: h in homes ==> Covered(h, s.data.entries, s.files);
      assert NoMeta(homes);
    }
  }
}
