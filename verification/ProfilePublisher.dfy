/** `publishLegacyWeComProfileBinding` and its recovery entry as they run on the two directories. */
module ProfilePublisher {
  import opened ProfileDocuments
  import opened ProfileBinding
  import opened ProfileBindingRuns

  /** Which system calls of one publication succeed. */
  datatype World = World(create: bool, write: bool, flush: bool, rename: bool, sync: bool, discard: bool)

  datatype Weather = Weather(
    sentinel: World, canonical: bool, metadata: World, verify: bool,
    dropMetadata: bool, syncMetadata: bool, dropSentinel: bool, syncSentinel: bool)

  /** How a publication ended: nothing under its name, named but perhaps not on disk, or done. */
  datatype Written = Unnamed | Unsynced | Published

  /** How a publication ends, call by call. */
  function Writing(w: World): Written {
    if !(w.create && w.write && w.flush && w.rename) then Unnamed else if w.sync then Published else Unsynced
  }

  /** Every call of a publication succeeds. */
  predicate Completes(w: World) {
    w.create && w.write && w.flush && w.rename && w.sync
  }

  class Publisher {
    var data: Dir
    var home: Dir
    var files: map<Ino, File>
    ghost var pc: Pc
    ghost var result: Result
    ghost var names: set<nat>
    ghost var parted: bool   // a sentinel was removed while its metadata was published
    const site: Site

    ghost function Snapshot(): State
      reads this
    {
      State(data, home, files, pc, result, names, site)
    }

    /** Holds after every single system call: until a rollback parts them, metadata has its sentinel. */
    ghost predicate Valid()
      reads this
    {
      Core(Snapshot()) && (!parted ==> SafeNow(Snapshot()))
    }

    constructor (home: Dir, files: map<Ino, File>, site: Site)
      requires home.versions == {home.entries} && MetadataName !in home.entries && site.inode != 0 && site.dataDir != 0
      ensures Valid() && pc.Idle? && data.entries == map[] && !parted
    {
      this.data, this.home, this.files, this.site := Dir(map[], {map[]}), home, files, site;
      pc, result, names, parted := Idle, None, {}, false;
    }

    /** Metadata `m` is published and so is its sentinel. */
    predicate Bound(m: Metadata)
      reads this
    {
      Bears(home.entries, files, m) && Marked(data.entries, files, m)
    }

    /** The program counter and the outcome follow the call of stage `stage`. */
    twostate predicate Followed(job: Job, stage: Stage, ok: bool)
      reads this
    {
      var after := Following(job, stage, ok);
      && pc == (if after.Goto? then At(job, after.stage) else Idle)
      && result == (if after.Goto? then None else after.result)
      && parted == (old(parted) || (stage.SDrop? && ok && MetadataName in old(home.entries)))
    }

    /** One system call is over. */
    ghost method Advance(before: State, job: Job, stage: Stage, ok: bool)
      requires Core(before) && (!parted ==> SafeNow(before)) && before.pc == At(job, stage) && Enabled(before, Do(ok))
      requires before == State(before.data, before.home, before.files, pc, result, names, site)
      requires data == DataAfter(before.data, job, stage, ok) && home == HomeAfter(before.home, job, stage, ok)
      requires files == FilesAfter(before.files, job, stage, ok)
      modifies this`pc, this`result, this`parted
      ensures Valid() && Snapshot() == Next(before, Do(ok)) && parted == (old(parted) || Orphans(before, Do(ok)))
    {
      var after := Following(job, stage, ok);
      pc := if after.Goto? then At(job, after.stage) else Idle;
      result := if after.Goto? then None else after.result;
      StepCore(before, Do(ok));
      if !parted {
        StepSafeNow(before, Do(ok));
      }
      parted := parted || Orphans(before, Do(ok));
    }

    twostate predicate KeepsMetadata()
      reads this
    {
      MetadataName in home.entries <==> MetadataName in old(home.entries)
    }

    // System calls ----------------------------------------------------------------------------------

    method CreateTemporary(inData: bool, job: Job, ok: bool)
      requires Valid() && pc == At(job, if inData then SCreate else MCreate)
      modifies this
      ensures Valid() && Followed(job, if inData then SCreate else MCreate, ok) && KeepsMetadata()
    {
      ghost var before := Snapshot();
      if ok {
        if inData {
          data := Changed(data, data.entries[Temp(job.n) := job.sIno]);
          files := files[job.sIno := File(Torn, false)];
        } else {
          home := Changed(home, home.entries[Temp(job.n) := job.mIno]);
          files := files[job.mIno := File(Torn, false)];
        }
      }
      Advance(before, job, if inData then SCreate else MCreate, ok);
    }

    method WriteContents(inData: bool, job: Job, ok: bool)
      requires Valid() && pc == At(job, if inData then SWrite else MWrite)
      modifies this
      ensures Valid() && Followed(job, if inData then SWrite else MWrite, ok) && home == old(home)
    {
      ghost var before := Snapshot();
      if ok {
        if inData {
          files := files[job.sIno := File(Mark(SentinelFor(job.meta)), false)];
        } else {
          files := files[job.mIno := File(Meta(job.meta), false)];
        }
      }
      Advance(before, job, if inData then SWrite else MWrite, ok);
    }

    method FlushContents(inData: bool, job: Job, ok: bool)
      requires Valid() && pc == At(job, if inData then SFlush else MFlush)
      modifies this
      ensures Valid() && Followed(job, if inData then SFlush else MFlush, ok) && home == old(home)
    {
      ghost var before := Snapshot();
      if ok {
        var ino := if inData then job.sIno else job.mIno;
        files := files[ino := files[ino].(synced := true)];
      }
      Advance(before, job, if inData then SFlush else MFlush, ok);
    }

    /** The rename, which does not replace. */
    method NameDocument(inData: bool, job: Job, ok: bool)
      requires Valid() && pc == At(job, if inData then SRename else MRename)
      modifies this
      ensures Valid() && Followed(job, if inData then SRename else MRename, ok)
      ensures inData || !ok ==> home == old(home)
    {
      ghost var before := Snapshot();
      if ok {
        if inData {
          data := Changed(data, (data.entries - {Temp(job.n)})[SentinelName := job.sIno]);
        } else {
          home := Changed(home, (home.entries - {Temp(job.n)})[MetadataName := job.mIno]);
        }
      }
      Advance(before, job, if inData then SRename else MRename, ok);
    }

    /** The deferred unlink of the temporary file. */
    method Discard(inData: bool, job: Job, ok: bool)
      requires Valid() && pc == At(job, if inData then SDiscard else MDiscard)
      modifies this
      ensures Valid() && Followed(job, if inData then SDiscard else MDiscard, ok) && KeepsMetadata()
    {
      ghost var before := Snapshot();
      if ok {
        if inData {
          data := Changed(data, data.entries - {Temp(job.n)});
        } else {
          home := Changed(home, home.entries - {Temp(job.n)});
        }
      }
      Advance(before, job, if inData then SDiscard else MDiscard, ok);
    }

    method SyncDirectory(inData: bool, job: Job, ghost stage: Stage, ok: bool)
      requires Valid() && pc == At(job, stage)
      requires if inData then stage == SSync || stage == SDropSync else stage == MSync || stage == MDropSync
      modifies this
      ensures Valid() && Followed(job, stage, ok) && home.entries == old(home.entries)
    {
      ghost var before := Snapshot();
      if ok {
        if inData {
          data := SyncedDir(data);
        } else {
          home := SyncedDir(home);
        }
      }
      Advance(before, job, stage, ok);
    }

    /** The unlink of a published document. */
    method Unlink(inData: bool, job: Job, ok: bool)
      requires Valid() && pc == At(job, if inData then SDrop else MDrop)
      modifies this
      ensures Valid() && Followed(job, if inData then SDrop else MDrop, ok)
      ensures if inData then home == old(home) else MetadataName in home.entries <==> !ok
    {
      ghost var before := Snapshot();
      if ok {
        if inData {
          data := Changed(data, data.entries - {SentinelName});
        } else {
          home := Changed(home, home.entries - {MetadataName});
        }
      }
      Advance(before, job, if inData then SDrop else MDrop, ok);
    }

    /** The checks that the pinned data directory is still the canonical one, and the last check. */
    method Inspect(job: Job, last: bool, ok: bool)
      requires Valid() && pc == At(job, if last then Verify else Canonical)
      modifies this
      ensures Valid() && Followed(job, if last then Verify else Canonical, ok)
      ensures last && ok ==> Bound(job.meta)
      ensures home == old(home)
    {
      Advance(Snapshot(), job, if last then Verify else Canonical, ok);
    }

    // Publication -----------------------------------------------------------------------------------

    /** Write, flush and name a temporary file that was just made. */
    method Fill(inData: bool, job: Job, w: World) returns (named: bool)
      requires Valid() && pc == At(job, if inData then SWrite else MWrite)
      modifies this
      ensures Valid() && parted == old(parted) && (inData || !named ==> home == old(home))
      ensures pc == At(job, if inData then (if named then SSync else SDiscard) else (if named then MSync else MDiscard))
      ensures named <==> w.write && w.flush && w.rename
    {
      WriteContents(inData, job, w.write);
      named := w.write;
      if named {
        FlushContents(inData, job, w.flush);
        named := w.flush;
      }
      if named {
        NameDocument(inData, job, w.rename);
        named := w.rename;
      }
    }

    /** `writeNewProfileDocumentAt` for the sentinel: it gets its name only after its contents are on
        disk, and only a failed sync leaves something to take back. */
    method PublishSentinel(job: Job, w: World) returns (r: Written)
      requires Valid() && pc == At(job, SCreate)
      modifies this
      ensures Valid() && parted == old(parted) && KeepsMetadata() && r == Writing(w)
      ensures match r
              case Unnamed => pc.Idle? && result.Failed?
              case Unsynced => pc == At(job, SDrop)
              case Published => pc == At(job, Canonical)
    {
      CreateTemporary(true, job, w.create);
      if !w.create {
        return Unnamed;
      }
      var named := Fill(true, job, w);
      if !named {
        Discard(true, job, w.discard);
        return Unnamed;
      }
      SyncDirectory(true, job, SSync, w.sync);
      r := if w.sync then Published else Unsynced;
    }

    /** The same for the metadata. */
    method PublishMetadata(job: Job, w: World) returns (r: Written)
      requires Valid() && pc == At(job, MCreate)
      modifies this
      ensures Valid() && parted == old(parted) && (r.Unnamed? ==> KeepsMetadata()) && r == Writing(w)
      ensures match r
              case Unnamed => if job.create then pc == At(job, SDrop) else pc.Idle? && result.Failed?
              case Unsynced => pc == At(job, MDrop)
              case Published => pc == At(job, Verify)
    {
      CreateTemporary(false, job, w.create);
      if !w.create {
        return Unnamed;
      }
      var named := Fill(false, job, w);
      if !named {
        Discard(false, job, w.discard);
        return Unnamed;
      }
      SyncDirectory(false, job, MSync, w.sync);
      r := if w.sync then Published else Unsynced;
    }

    // Rollback --------------------------------------------------------------------------------------

    /** `publication.remove` for the metadata. */
    method DropMetadata(job: Job, w: Weather)
      requires Valid() && pc == At(job, MDrop)
      modifies this
      ensures Valid() && parted == old(parted) && (MetadataName in home.entries <==> !w.dropMetadata)
      ensures if job.create then pc == At(job, SDrop) else pc.Idle? && result.Failed?
    {
      Unlink(false, job, w.dropMetadata);
      if w.dropMetadata {
        SyncDirectory(false, job, MDropSync, w.syncMetadata);
      }
    }

    /** `publication.remove` for the sentinel. */
    method DropSentinel(job: Job, w: Weather)
      requires Valid() && pc == At(job, SDrop)
      modifies this
      ensures Valid() && pc.Idle? && result.Failed?
      ensures parted == (old(parted) || (w.dropSentinel && MetadataName in old(home.entries)))
    {
      Unlink(true, job, w.dropSentinel);
      if w.dropSentinel {
        SyncDirectory(true, job, SDropSync, w.syncSentinel);
      }
    }

    /** The deferred rollback: first the metadata, then the sentinel this attempt made.  It parts
        them exactly when it cannot unlink the one and then unlinks the other. */
    method TakeBack(job: Job, hasMetadata: bool, w: Weather)
      requires Valid() && (if hasMetadata then pc == At(job, MDrop) else MetadataName !in home.entries)
      requires !hasMetadata ==> if job.create then pc == At(job, SDrop) else pc.Idle? && result.Failed?
      modifies this
      ensures Valid() && pc.Idle? && result.Failed?
      ensures parted == (old(parted) || (hasMetadata && !w.dropMetadata && job.create && w.dropSentinel))
    {
      if hasMetadata {
        DropMetadata(job, w);
      }
      if job.create {
        DropSentinel(job, w);
      }
    }

    // The whole -------------------------------------------------------------------------------------

    /** From a sentinel that is in place, made by this attempt or found by recovery. */
    method Conclude(job: Job, w: Weather) returns (ok: bool)
      requires Valid() && pc == At(job, Canonical) && MetadataName !in home.entries
      modifies this
      ensures Valid() && pc.Idle? && result == (if ok then Done else Failed) && (ok ==> Bound(job.meta))
      ensures ok <==> w.canonical && Completes(w.metadata) && w.verify
      ensures parted ==> old(parted) || (!w.dropMetadata && job.create && w.dropSentinel)
    {
      Inspect(job, false, w.canonical);
      if !w.canonical {
        TakeBack(job, false, w);
        return false;
      }
      var r := PublishMetadata(job, w.metadata);
      if r.Published? {
        Inspect(job, true, w.verify);
      }
      ok := r.Published? && w.verify;
      if !ok {
        TakeBack(job, !r.Unnamed?, w);
      }
    }

    /** `publishLegacyWeComProfileBinding` with a sentinel to create. */
    method Publish(job: Job, w: Weather) returns (ok: bool)
      requires Valid() && pc == At(job, SCreate) && job.create && MetadataName !in home.entries
      modifies this
      ensures Valid() && pc.Idle? && result == (if ok then Done else Failed) && (ok ==> Bound(job.meta))
      ensures ok <==> Completes(w.sentinel) && w.canonical && Completes(w.metadata) && w.verify
      ensures parted ==> old(parted) || (!w.dropMetadata && w.dropSentinel)
    {
      var r := PublishSentinel(job, w.sentinel);
      ok := false;
      match r
      case Unnamed =>
      case Unsynced => TakeBack(job, false, w);
      case Published => ok := Conclude(job, w);
    }

    /** `preparePersistentProfile` without metadata and without a container.  At every point metadata
        has its sentinel, unless the rollback of an attempt that made the sentinel removes it without
        having removed the metadata; success means that both are there, for the found sentinel's
        profile if there was one; refusal means contents that recovery does not know. */
    method Prepare(n: nat, sIno: Ino, mIno: Ino, profile: Token, createdAt: Token, w: Weather) returns (r: Result)
      requires Valid() && Enabled(Snapshot(), Begin(n, sIno, mIno, profile, createdAt)) && MetadataName !in home.entries
      modifies this
      ensures Valid() && pc.Idle? && r == result && !r.None?
      ensures parted ==> old(parted) || (old(data.entries) == map[] && !w.dropMetadata && w.dropSentinel)
      ensures r.Refused? <==> !old(Recoverable(Snapshot()))
      ensures r.Done? <==> && old(Recoverable(Snapshot())) && (old(data.entries) == map[] ==> Completes(w.sentinel))
                           && w.canonical && Completes(w.metadata) && w.verify
      ensures r.Done? && old(data.entries) == map[] ==>
                Bound(Metadata(2, site.account, profile, site.dataDir, 0, site.inode, createdAt))
      ensures r.Done? && old(data.entries) != map[] ==>
                var found := old(files[data.entries[SentinelName]].content.s);
                Bound(Metadata(2, found.account, found.profile, site.dataDir, 0, site.inode, found.createdAt))
    {
      StepCore(Snapshot(), Begin(n, sIno, mIno, profile, createdAt));
      if !parted {
        StepSafeNow(Snapshot(), Begin(n, sIno, mIno, profile, createdAt));
      }
      var ok := false;
      if data.entries == map[] {
        var job := Job(n, sIno, mIno, NewMetadata(site, profile, createdAt), true);
        pc, result, names := At(job, SCreate), None, names + {n};
        ok := Publish(job, w);
      } else if OnlySentinel(data.entries, files, site.account) {
        var s := files[data.entries[SentinelName]].content.s;
        var job := Job(n, sIno, mIno, MetadataFor(s, site.dataDir, site.inode), false);
        pc, result, names := At(job, Canonical), None, names + {n};
        ok := Conclude(job, w);
      } else {
        result := Refused;
        return Refused;
      }
      r := if ok then Done else Failed;
    }
  }
}
