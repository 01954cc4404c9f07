/** The migration's guarantees over every run of attempts, failures, crashes and power losses, and
    the migration as it runs on the directory. */
module ProfileMigrationRuns {
  import opened ProfileDocuments
  import opened ProfileMigration

  /** The target is the migrated form of a valid legacy document. */
  predicate Legitimate(s: State, account: Token, inode: Token, dataDir: Token) {
    && ValidMetadata(s.prior, account, inode) && s.prior.schema == LegacySchema
    && dataDir != 0 && s.target == Migrated(s.prior, dataDir)
  }

  /** A valid document of the same account, profile, inode and creation time. */
  predicate SameProfile(m: Metadata, prior: Metadata, account: Token, inode: Token) {
    && ValidMetadata(m, account, inode)
    && m.account == prior.account && m.profile == prior.profile && m.inode == prior.inode && m.createdAt == prior.createdAt
  }

  /** After every run, whatever failed and wherever it was cut: the metadata path names a whole
      document of one schema or the other for the same profile, also if the power fails now and
      any listing since the last sync comes back. */
  lemma MetadataSurvives(s: State, es: seq<Event>, version: Entries, account: Token, inode: Token, dataDir: Token)
    requires Start(s) && Legitimate(s, account, inode, dataDir)
    requires version in Run(s, es).dir.versions
    ensures var t := Run(s, es);
            && Whole(t.dir.entries, t.files, s.prior, s.target)
            && Whole(version, Shaken(t.files), s.prior, s.target)
            && MetadataName in version && version[MetadataName] in t.files
            && t.files[version[MetadataName]].content.Meta?
            && SameProfile(t.files[version[MetadataName]].content.m, s.prior, account, inode)
  {
    RunKeeps(s, es);
  }

  /** Steps left on the fault-free way from a stage to the end of the attempt. */
  function Rank(stage: Stage): (n: nat)
    ensures n > 0
  {
    match stage
    case Creating => 10
    case Writing => 9
    case Flushing => 8
    case Publishing => 7
    case SyncPublished => 6
    case Exchanging => 5
    case Checking => 4
    case SyncExchanged => 3
    case Dropping => 2
    case SyncDropped => 1
    case RollingBack => 5
    case SyncBack => 4
    case CheckingBack => 3
    case Removing => 2
    case SyncRemoved => 1
    case Discarding => 1
  }

  predicate Retreats(stage: Stage) {
    stage.RollingBack? || stage.SyncBack? || stage.CheckingBack? || stage.Removing? || stage.SyncRemoved? || stage.Discarding?
  }

  /** `n` system calls that succeed. */
  function Smooth(n: nat): (es: seq<Event>)
    ensures |es| == n
  {
    if n == 0 then [] else [Do(true)] + Smooth(n - 1)
  }

  /** One call that succeeds brings the end one step nearer, in the same direction. */
  lemma SmoothStep(s: State)
    requires Inv(s) && s.pc.At?
    ensures var t := Step(s, Do(true));
            if Rank(s.pc.stage) == 1 then
              && t.pc.Idle? && t.result == (if Retreats(s.pc.stage) then KeptLegacy(s.pc.job.legacy) else Done)
              && (!s.pc.stage.Discarding? ==> t.dir.versions == {t.dir.entries})
            else
              && t.pc.At? && t.pc.job == s.pc.job && Rank(t.pc.stage) == Rank(s.pc.stage) - 1
              && (Retreats(t.pc.stage) <==> Retreats(s.pc.stage)) && !t.pc.stage.Discarding? && !s.pc.stage.Discarding?
  {
  }

  lemma RunSmooth(s: State, n: nat)
    requires n > 0
    ensures Run(s, Smooth(n)) == Run(Step(s, Do(true)), Smooth(n - 1))
  {
    assert Smooth(n)[1..] == Smooth(n - 1);
  }

  /** With no further failure an attempt ends: going forward in schema 2, going back with the very
      legacy file in its place; both on disk for good. */
  lemma {:induction false} SmoothEnds(s: State)
    requires Inv(s) && s.pc.At?
    ensures var t := Run(s, Smooth(Rank(s.pc.stage)));
            && t.pc.Idle? && Inv(t)
            && t.result == (if Retreats(s.pc.stage) then KeptLegacy(s.pc.job.legacy) else Done)
            && (!s.pc.stage.Discarding? ==> t.dir.versions == {t.dir.entries})
    decreases Rank(s.pc.stage)
  {
    SmoothStep(s);
    StepKeeps(s, Do(true));
    RunSmooth(s, Rank(s.pc.stage));
    if Rank(s.pc.stage) > 1 {
      SmoothEnds(Step(s, Do(true)));
    }
  }

  /** Starting again from whatever state earlier attempts and crashes left ends in schema 2. */
  lemma RetryMigrates(s: State, es: seq<Event>, n: nat, ino: Ino)
    requires Start(s)
    requires var t := Run(s, es); t.pc.Idle? && n !in t.names && ino !in t.files
    ensures var t := Run(Step(Run(s, es), Begin(n, ino)), Smooth(10));
            t.result.Done? && t.pc.Idle? && Names(t.dir.entries, t.files, MetadataName, s.target)
  {
    RunKeeps(s, es);
    var t := Run(s, es);
    var u := Step(t, Begin(n, ino));
    StepKeeps(t, Begin(n, ino));
    if u.pc.At? {
      SmoothEnds(u);
    } else {
      IdleStays(u, 10);
    }
  }

  lemma {:induction false} IdleStays(s: State, n: nat)
    requires s.pc.Idle?
    ensures Run(s, Smooth(n)) == s
  {
    if n > 0 {
      RunSmooth(s, n);
      IdleStays(s, n - 1);
    }
  }

  predicate Alters(stage: Stage) {
    || stage.Publishing? || stage.Discarding? || stage.Exchanging? || stage.RollingBack?
    || stage.Dropping? || stage.Removing?
  }

  // The code --------------------------------------------------------------------------------------

  /** Which system calls succeed. */
  datatype World = World(
    create: bool, write: bool, flush: bool, publish: bool, discard: bool, syncPublished: bool, exchange: bool,
    check: bool, syncExchanged: bool, drop: bool, syncDropped: bool,
    rollback: bool, syncBack: bool, checkBack: bool, remove: bool, syncRemoved: bool)

  class StateDirectory {
    var dir: Dir
    var files: map<Ino, File>
    ghost var pc: Pc
    ghost var result: Result
    ghost var names: set<nat>
    const prior: Metadata
    const target: Metadata

    ghost function Snapshot(): State
      reads this
    {
      State(dir, files, pc, result, names, prior, target)
    }

    /** True after every single system call: a crash may fall anywhere. */
    ghost predicate Valid()
      reads this
    {
      Inv(Snapshot())
    }

    constructor (d: Dir, f: map<Ino, File>, m: Metadata, c: Metadata)
      requires d.versions == {d.entries} && Names(d.entries, f, MetadataName, m) && m != c
      ensures Valid() && Start(Snapshot()) && dir == d && files == f && prior == m && target == c
    {
      dir, files, pc, result, names, prior, target := d, f, Idle, None, {}, m, c;
    }

    /** One system call of the current stage is over. */
    ghost method Advance(before: State, ok: bool)
      requires Inv(before) && before.pc.At? && before.pc == pc && before.names == names && before.prior == prior && before.target == target
      requires dir == DirAfter(before.dir, pc.job, pc.stage, ok)
      requires files == FilesAfter(before.files, pc.job, pc.stage, ok, target)
      modifies this`pc, this`result
      ensures Valid() && Snapshot() == Next(before, Do(ok))
    {
      DoKeeps(before, ok);
      var after := Following(pc.job, pc.stage, ok);
      result := if after.Goto? then None else after.result;
      pc := if after.Goto? then At(pc.job, after.stage) else Idle;
    }

    /** A rename, exchange or unlink. */
    method Alter(entries: Entries, ok: bool)
      requires Valid() && pc.At? && Alters(pc.stage) && entries == EntriesAfter(dir.entries, pc.job, pc.stage)
      modifies this
      ensures Valid() && Snapshot() == Next(old(Snapshot()), Do(ok))
    {
      ghost var before := Snapshot();
      if ok {
        dir := Changed(dir, entries);
      }
      Advance(before, ok);
    }

    method Sync(ok: bool)
      requires Valid() && pc.At? && IsSync(pc.stage)
      modifies this
      ensures Valid() && Snapshot() == Next(old(Snapshot()), Do(ok))
    {
      ghost var before := Snapshot();
      if ok {
        dir := SyncedDir(dir);
      }
      Advance(before, ok);
    }

    /** A look at the entries, which changes nothing. */
    method Look(ok: bool)
      requires Valid() && pc.At? && (pc.stage.Checking? || pc.stage.CheckingBack?)
      modifies this
      ensures Valid() && Snapshot() == Next(old(Snapshot()), Do(ok))
    {
      Advance(Snapshot(), ok);
    }

    method CreateTemporary(n: nat, ino: Ino, ok: bool)
      requires Valid() && pc.At? && pc.stage.Creating? && pc.job.n == n && pc.job.ino == ino
      modifies this
      ensures Valid() && Snapshot() == Next(old(Snapshot()), Do(ok))
    {
      ghost var before := Snapshot();
      if ok {
        dir := Changed(dir, dir.entries[Temp(n) := ino]);
        files := files[ino := File(Torn, false)];
      }
      Advance(before, ok);
    }

    method WriteContents(ino: Ino, ok: bool)
      requires Valid() && pc.At? && pc.stage.Writing? && pc.job.ino == ino
      modifies this
      ensures Valid() && Snapshot() == Next(old(Snapshot()), Do(ok))
    {
      ghost var before := Snapshot();
      if ok {
        files := files[ino := File(Meta(target), false)];
      }
      Advance(before, ok);
    }

    method FlushContents(ino: Ino, ok: bool)
      requires Valid() && pc.At? && pc.stage.Flushing? && pc.job.ino == ino
      modifies this
      ensures Valid() && Snapshot() == Next(old(Snapshot()), Do(ok))
    {
      ghost var before := Snapshot();
      if ok {
        files := files[ino := files[ino].(synced := true)];
      }
      Advance(before, ok);
    }

    /** The temporary file's contents reach the disk before it gets its name. */
    method Fill(ino: Ino, w: World) returns (ok: bool)
      requires Valid() && pc.At? && pc.stage.Writing? && pc.job.ino == ino
      modifies this
      ensures Valid() && pc == At(old(pc.job), if ok then Publishing else Discarding) && (ok <==> w.write && w.flush)
    {
      WriteContents(ino, w.write);
      ok := w.write;
      if ok {
        FlushContents(ino, w.flush);
        ok := w.flush;
      }
    }

    /** `writeNewProfileDocumentAt` up to the rename without replacing. */
    method WriteNewDocument(n: nat, ino: Ino, w: World) returns (ok: bool)
      requires Valid() && pc.At? && pc.stage.Creating? && pc.job.n == n && pc.job.ino == ino
      modifies this
      ensures Valid() && (ok ==> pc == At(old(pc.job), SyncPublished))
      ensures ok <==> w.create && w.write && w.flush && w.publish
      ensures !ok ==> pc.Idle? && result == KeptLegacy(old(pc.job.legacy))
    {
      CreateTemporary(n, ino, w.create);
      if !w.create {
        return false;
      }
      ok := Fill(ino, w);
      if ok {
        Alter((dir.entries - {Temp(n)})[Candidate(n) := ino], w.publish);
        ok := w.publish;
      }
      if !ok {
        Alter(dir.entries - {Temp(n)}, w.discard);
      }
    }

    /** `publication.remove`: the candidate goes and the directory is synced. */
    method RemoveCandidate(n: nat, w: World)
      requires Valid() && pc.At? && pc.stage.Removing? && pc.job.n == n
      modifies this
      ensures Valid() && pc.Idle? && result == KeptLegacy(old(pc.job.legacy))
    {
      Alter(dir.entries - {Candidate(n)}, w.remove);
      if w.remove {
        Sync(w.syncRemoved);
      }
    }

    /** `rollbackWeComProfileMetadataExchange`, and the removal that follows a successful one. */
    method Rollback(n: nat, w: World)
      requires Valid() && pc.At? && pc.stage.RollingBack? && pc.job.n == n
      modifies this
      ensures Valid() && pc.Idle?
      ensures result == if w.rollback then KeptLegacy(old(pc.job.legacy)) else KeptCurrent
    {
      Alter(Exchange(dir.entries, MetadataName, Candidate(n)), w.rollback);
      if w.rollback {
        Sync(w.syncBack);
        if w.syncBack {
          Look(w.checkBack);
          if w.checkBack {
            RemoveCandidate(n, w);
          }
        }
      }
    }

    /** `migrateLegacyWeComProfileMetadata` on a legacy document: it reports success only in
        schema 2; a failure leaves the legacy file itself in place, unless the new one could not be
        taken out again or only the displaced file was left over. */
    method Migrate(n: nat, ino: Ino, w: World) returns (ok: bool)
      requires Valid() && pc.Idle? && n !in names && ino !in files
      requires Names(dir.entries, files, MetadataName, prior)
      modifies this
      ensures Valid() && pc.Idle?
      ensures ok <==> w.create && w.write && w.flush && w.publish && w.syncPublished && w.exchange
                      && w.check && w.syncExchanged && w.drop && w.syncDropped
      ensures ok ==> Names(dir.entries, files, MetadataName, target) && dir.versions == {dir.entries} && Candidate(n) !in dir.entries
      ensures !ok ==> result == if w.create && w.write && w.flush && w.publish && w.syncPublished && w.exchange
                                   && ((w.check && w.syncExchanged) || !w.rollback)
                                then KeptCurrent else KeptLegacy(old(dir.entries[MetadataName]))
      ensures result == KeptCurrent ==> Names(dir.entries, files, MetadataName, target)
      ensures result == KeptLegacy(old(dir.entries[MetadataName])) ==>
                MetadataName in dir.entries && dir.entries[MetadataName] == old(dir.entries[MetadataName])
                && Names(dir.entries, files, MetadataName, prior)
    {
      pc := At(Job(n, ino, dir.entries[MetadataName]), Creating);
      names, result := names + {n}, None;
      ok := WriteNewDocument(n, ino, w);
      if ok {
        ok := Install(n, w);
      }
    }

    /** `verifyAndMigrateWeComProfileMetadata`: schema 2 is taken as it is, schema 1 is migrated;
        there is nothing else to find. */
    method VerifyAndMigrate(n: nat, ino: Ino, w: World) returns (ok: bool)
      requires Valid() && pc.Idle? && n !in names && ino !in files
      modifies this
      ensures Valid() && pc.Idle?
      ensures ok ==> Names(dir.entries, files, MetadataName, target)
      ensures !old(Names(dir.entries, files, MetadataName, target)) ==>
                (ok <==> && w.create && w.write && w.flush && w.publish && w.syncPublished && w.exchange
                         && w.check && w.syncExchanged && w.drop && w.syncDropped)
      ensures old(Names(dir.entries, files, MetadataName, target)) ==> ok && dir == old(dir) && files == old(files)
    {
      if Names(dir.entries, files, MetadataName, target) {
        return true;
      }
      ok := Migrate(n, ino, w);
    }

    /** From the published candidate to the end. */
    method Install(n: nat, w: World) returns (ok: bool)
      requires Valid() && pc.At? && pc.stage.SyncPublished? && pc.job.n == n
      modifies this
      ensures Valid() && pc.Idle?
      ensures ok <==> w.syncPublished && w.exchange && w.check && w.syncExchanged && w.drop && w.syncDropped
      ensures ok ==> dir.versions == {dir.entries} && result.Done? && Candidate(n) !in dir.entries
      ensures !ok ==> result == if w.syncPublished && w.exchange && ((w.check && w.syncExchanged) || !w.rollback)
                                then KeptCurrent else KeptLegacy(old(pc.job.legacy))
    {
      Sync(w.syncPublished);
      if w.syncPublished {
        Alter(Exchange(dir.entries, MetadataName, Candidate(n)), w.exchange);
      }
      if !w.syncPublished || !w.exchange {
        RemoveCandidate(n, w);
        return false;
      }
      ok := Confirm(n, w);
    }

    /** From the exchange to the end. */
    method Confirm(n: nat, w: World) returns (ok: bool)
      requires Valid() && pc.At? && pc.stage.Checking? && pc.job.n == n
      modifies this
      ensures Valid() && pc.Idle?
      ensures ok <==> w.check && w.syncExchanged && w.drop && w.syncDropped
      ensures ok ==> dir.versions == {dir.entries} && result.Done? && Candidate(n) !in dir.entries
      ensures !ok ==> result == if (w.check && w.syncExchanged) || !w.rollback then KeptCurrent else KeptLegacy(old(pc.job.legacy))
    {
      Look(w.check);
      if w.check {
        Sync(w.syncExchanged);
      }
      if !w.check || !w.syncExchanged {
        Rollback(n, w);
        return false;
      }
      ok := DropDisplaced(n, w);
    }

    /** The displaced legacy file goes. */
    method DropDisplaced(n: nat, w: World) returns (ok: bool)
      requires Valid() && pc.At? && pc.stage.Dropping? && pc.job.n == n
      modifies this
      ensures Valid() && pc.Idle? && (ok <==> w.drop && w.syncDropped)
      ensures ok ==> dir.versions == {dir.entries} && result.Done? && Candidate(n) !in dir.entries
      ensures !ok ==> result == KeptCurrent
    {
      Alter(dir.entries - {Candidate(n)}, w.drop);
      if w.drop {
        Sync(w.syncDropped);
      }
      ok := w.drop && w.syncDropped;
    }
  }
}
