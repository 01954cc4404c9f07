/** The binding's guarantees over every run of attempts, failures, crashes and power losses. */
module ProfileBindingRuns {
  import opened ProfileDocuments
  import opened ProfileBinding

  /** A new account: an empty data directory and no metadata. */
  ghost predicate Start(s: State) {
    && s.data == Dir(map[], {map[]}) && s.home.versions == {s.home.entries} && MetadataName !in s.home.entries
    && s.pc.Idle? && s.site.inode != 0 && s.site.dataDir != 0
  }

  ghost predicate NoPowerLoss(es: seq<Event>) {
    forall k :: 0 <= k < |es| ==> !es[k].PowerLoss?
  }

  // Crashes of the daemon ---------------------------------------------------------------------------------

  /** The system call that removes the sentinel while metadata is published. */
  predicate Orphans(s: State, e: Event) {
    e == Do(true) && AtStage(s, SDrop) && MetadataName in s.home.entries
  }

  ghost predicate NeverOrphans(s: State, es: seq<Event>)
    decreases |es|
  {
    es == [] || (!Orphans(s, es[0]) && NeverOrphans(Step(s, es[0]), es[1..]))
  }

  predicate CoveredNow(s: State) {
    Covered(s.home.entries, s.data.entries, s.files)
  }

  /** In the first and in every later state of the run. */
  ghost predicate AlwaysCovered(s: State, es: seq<Event>)
    decreases |es|
  {
    CoveredNow(s) && (es == [] || AlwaysCovered(Step(s, es[0]), es[1..]))
  }

  ghost predicate SafeNow(s: State) {
    Core(s) && Safe({s.home.entries}, {s.data.entries}, s)
  }

  lemma StepSafeNow(s: State, e: Event)
    requires SafeNow(s) && !e.PowerLoss?
    ensures if Orphans(s, e) then !CoveredNow(Step(s, e)) else SafeNow(Step(s, e))
  {
    StepCore(s, e);
    var t := Step(s, e);
    if Enabled(s, e) {
      match e
      case Begin(_, _, _, _, _) => BeginSafe(s, e, {s.home.entries}, {s.data.entries});
      case Do(ok) =>
        assert Hazard(s, e, {s.home.entries}, {s.data.entries}) <==> Orphans(s, e);
        if Orphans(s, e) {
          HazardParts(s, ok, {s.home.entries}, {s.data.entries}, {t.home.entries}, {t.data.entries});
        } else {
          DoSafe(s, ok, {s.home.entries}, {s.data.entries}, {t.home.entries}, {t.data.entries});
        }
      case Crash =>
    }
  }

  lemma {:induction false} CoveredExactly(s: State, es: seq<Event>)
    requires SafeNow(s) && NoPowerLoss(es)
    ensures AlwaysCovered(s, es) <==> NeverOrphans(s, es)
    decreases |es|
  {
    if es != [] {
      StepSafeNow(s, es[0]);
      if !Orphans(s, es[0]) {
        CoveredExactly(Step(s, es[0]), es[1..]);
      }
    }
  }

  /** Over every run with crashes of the daemon: published metadata has its matching sentinel at
      every point, if and only if no rollback removes the sentinel while the metadata is there. */
  lemma MetadataHasSentinelExactly(s: State, es: seq<Event>)
    requires Start(s) && NoPowerLoss(es)
    ensures AlwaysCovered(s, es) <==> NeverOrphans(s, es)
  {
    CoveredExactly(s, es);
  }

  /** No rollback fails to unlink the metadata. */
  ghost predicate Unlinks(s: State, es: seq<Event>)
    decreases |es|
  {
    es == [] || (!(AtStage(s, MDrop) && es[0] == Do(false)) && Unlinks(Step(s, es[0]), es[1..]))
  }

  /** While every unlink of metadata succeeds, none is there when the sentinel goes. */
  predicate Unlinked(s: State) {
    s.pc.At? && (OwnsSentinel(s.pc.stage) || s.pc.stage.MDropSync?) ==> MetadataName !in s.home.entries
  }

  lemma StepUnlinked(s: State, e: Event)
    requires Core(s) && Unlinked(s) && !e.PowerLoss? && !(AtStage(s, MDrop) && e == Do(false))
    ensures Unlinked(Step(s, e))
  {
  }

  lemma {:induction false} UnlinkingCovers(s: State, es: seq<Event>)
    requires SafeNow(s) && Unlinked(s) && NoPowerLoss(es) && Unlinks(s, es)
    ensures NeverOrphans(s, es) && AlwaysCovered(s, es)
    decreases |es|
  {
    if es != [] {
      StepSafeNow(s, es[0]);
      StepUnlinked(s, es[0]);
      UnlinkingCovers(Step(s, es[0]), es[1..]);
    }
  }

  /** In particular metadata has its sentinel throughout whenever rollback manages to unlink the metadata. */
  lemma UnlinkingIsEnough(s: State, es: seq<Event>)
    requires Start(s) && NoPowerLoss(es) && Unlinks(s, es)
    ensures NeverOrphans(s, es) && AlwaysCovered(s, es)
  {
    UnlinkingCovers(s, es);
  }

  // Power losses ------------------------------------------------------------------------------------------

  ghost predicate Hazardous(s: State, e: Event) {
    Hazard(s, e, s.home.versions, s.data.versions)
  }

  ghost predicate NeverHazardous(s: State, es: seq<Event>)
    decreases |es|
  {
    es == [] || (!Hazardous(s, es[0]) && NeverHazardous(Step(s, es[0]), es[1..]))
  }

  /** Whatever pair of listings a power loss brings back now, metadata has its sentinel. */
  ghost predicate CoveredOnDisk(s: State) {
    Cover(s.home.versions, s.data.versions, Shaken(s.files))
  }

  ghost predicate AlwaysCoveredOnDisk(s: State, es: seq<Event>)
    decreases |es|
  {
    CoveredOnDisk(s) && (es == [] || AlwaysCoveredOnDisk(Step(s, es[0]), es[1..]))
  }

  /** Only flushed files count, and those survive. */
  lemma ShakenCover(homes: set<Entries>, datas: set<Entries>, files: map<Ino, File>)
    ensures Cover(homes, datas, Shaken(files)) <==> Cover(homes, datas, files)
  {
    forall h, d | h in homes && d in datas ensures Covered(h, d, Shaken(files)) <==> Covered(h, d, files) {
    }
  }

  ghost predicate SafeOnDisk(s: State) {
    Core(s) && Safe(s.home.versions, s.data.versions, s)
  }

  lemma StepSafeOnDisk(s: State, e: Event)
    requires SafeOnDisk(s)
    ensures if Hazardous(s, e) then !CoveredOnDisk(Step(s, e)) else SafeOnDisk(Step(s, e))
  {
    StepCore(s, e);
    var t := Step(s, e);
    ShakenCover(t.home.versions, t.data.versions, t.files);
    if Enabled(s, e) {
      match e
      case Begin(_, _, _, _, _) => BeginSafe(s, e, s.home.versions, s.data.versions);
      case Do(ok) =>
        if Hazardous(s, e) {
          HazardParts(s, ok, s.home.versions, s.data.versions, t.home.versions, t.data.versions);
        } else {
          DoSafe(s, ok, s.home.versions, s.data.versions, t.home.versions, t.data.versions);
        }
      case PowerLoss(data, home) =>
        ShakenCover(s.home.versions, s.data.versions, s.files);
        assert Covered(home, data, Shaken(s.files));
      case Crash =>
    }
  }

  lemma {:induction false} CoveredOnDiskExactly(s: State, es: seq<Event>)
    requires SafeOnDisk(s)
    ensures AlwaysCoveredOnDisk(s, es) <==> NeverHazardous(s, es)
    decreases |es|
  {
    ShakenCover(s.home.versions, s.data.versions, s.files);
    if es != [] {
      StepSafeOnDisk(s, es[0]);
      if !Hazardous(s, es[0]) {
        CoveredOnDiskExactly(Step(s, es[0]), es[1..]);
      }
    }
  }

  /** Over every run with crashes and power losses: every pair of listings that a power loss may
      bring back has its sentinel beside the metadata, at every point, if and only if the sentinel
      is never removed while some listing shows metadata, and the metadata never named while some
      listing lacks its sentinel. */
  lemma MetadataHasSentinelOnDiskExactly(s: State, es: seq<Event>)
    requires Start(s)
    ensures AlwaysCoveredOnDisk(s, es) <==> NeverHazardous(s, es)
  {
    CoveredOnDiskExactly(s, es);
  }

  // Fault-free calls ------------------------------------------------------------------------------------------

  function Rank(stage: Stage): (n: nat)
    ensures n > 0
  {
    match stage
    case SCreate => 12
    case SWrite => 11
    case SFlush => 10
    case SRename => 9
    case SSync => 8
    case Canonical => 7
    case MCreate => 6
    case MWrite => 5
    case MFlush => 4
    case MRename => 3
    case MSync => 2
    case Verify => 1
    case _ => 1
  }

  predicate Forward(stage: Stage) {
    !stage.SDiscard? && !stage.MDiscard? && !stage.MDrop? && !stage.MDropSync? && !stage.SDrop? && !stage.SDropSync?
  }

  /** `n` system calls that succeed. */
  function Smooth(n: nat): (es: seq<Event>)
    ensures |es| == n
  {
    if n == 0 then [] else [Do(true)] + Smooth(n - 1)
  }

  lemma {:induction false} RunConcat(s: State, es: seq<Event>, fs: seq<Event>)
    ensures Run(s, es + fs) == Run(Run(s, es), fs)
    decreases |es|
  {
    if es == [] {
      assert es + fs == fs;
    } else {
      assert (es + fs)[1..] == es[1..] + fs;
      RunConcat(Step(s, es[0]), es[1..], fs);
    }
  }

  lemma RunOne(s: State, e: Event)
    ensures Run(s, [e]) == Step(s, e)
  {
    assert [e][1..] == [];
  }

  lemma RunCons(s: State, e: Event, rest: seq<Event>)
    ensures Run(s, [e] + rest) == Run(Step(s, e), rest)
  {
    RunConcat(s, [e], rest);
    RunOne(s, e);
  }

  lemma {:induction false} RunCore(s: State, es: seq<Event>)
    requires Core(s)
    ensures Core(Run(s, es)) && Run(s, es).site == s.site
    decreases |es|
  {
    if es != [] {
      StepCore(s, es[0]);
      RunCore(Step(s, es[0]), es[1..]);
    }
  }

  /** The account is bound: metadata `m` and its sentinel. */
  predicate BoundTo(s: State, m: Metadata) {
    Bears(s.home.entries, s.files, m) && Marked(s.data.entries, s.files, m)
  }

  lemma SmoothStep(s: State)
    requires Core(s) && s.pc.At? && Forward(s.pc.stage)
    ensures var t := Step(s, Do(true));
            if s.pc.stage.Verify? then t.pc.Idle? && t.result.Done? && BoundTo(t, s.pc.job.meta)
            else t.pc.At? && t.pc.job == s.pc.job && Forward(t.pc.stage) && Rank(t.pc.stage) == Rank(s.pc.stage) - 1
    ensures Rank(s.pc.stage) <= 7 ==> Step(s, Do(true)).data == s.data
  {
  }

  /** `k` calls that succeed bring a forward attempt `k` stages on. */
  lemma {:induction false} SmoothReaches(s: State, k: nat)
    requires Core(s) && s.pc.At? && Forward(s.pc.stage) && k < Rank(s.pc.stage)
    ensures var t := Run(s, Smooth(k));
            && Core(t) && t.pc.At? && t.pc.job == s.pc.job && Forward(t.pc.stage) && Rank(t.pc.stage) == Rank(s.pc.stage) - k
            && (Rank(s.pc.stage) <= 7 ==> t.data == s.data)
    decreases k
  {
    if k > 0 {
      SmoothStep(s);
      StepCore(s, Do(true));
      RunCons(s, Do(true), Smooth(k - 1));
      SmoothReaches(Step(s, Do(true)), k - 1);
    }
  }

  lemma {:induction false} SmoothSplit(n: nat)
    requires n > 0
    ensures Smooth(n) == Smooth(n - 1) + [Do(true)]
  {
    if n > 1 {
      SmoothSplit(n - 1);
    }
  }

  /** With no further failure an attempt going forward binds the account. */
  lemma SmoothBinds(s: State)
    requires Core(s) && s.pc.At? && Forward(s.pc.stage)
    ensures var t := Run(s, Smooth(Rank(s.pc.stage)));
            && Core(t) && t.pc.Idle? && t.result.Done? && BoundTo(t, s.pc.job.meta)
            && (Rank(s.pc.stage) <= 7 ==> t.data == s.data)
  {
    var n := Rank(s.pc.stage);
    SmoothReaches(s, n - 1);
    SmoothSplit(n);
    RunConcat(s, Smooth(n - 1), [Do(true)]);
    RunOne(Run(s, Smooth(n - 1)), Do(true));
    SmoothStep(Run(s, Smooth(n - 1)));
    StepCore(Run(s, Smooth(n - 1)), Do(true));
  }

  // Runs that part metadata from its sentinel ----------------------------------------------------------------

  lemma StartIsCore(s: State)
    requires Start(s)
    ensures Core(s)
  {
  }

  /** A run from a new account: every call succeeds up to the last check, which fails; rollback
      cannot unlink the metadata and still takes back the sentinel that this attempt made. */
  lemma FailedRemovalOrphans(s: State, e: Event)
    requires Start(s) && e.Begin? && Enabled(s, e)
    ensures !CoveredNow(Run(s, [e] + Smooth(11) + [Do(false), Do(false), Do(true)]))
  {
    StartIsCore(s);
    var s1 := Step(s, e);
    StepCore(s, e);
    SmoothReaches(s1, 11);
    var s2 := Run(s1, Smooth(11));
    RunCons(s, e, Smooth(11));
    RunConcat(s, [e] + Smooth(11), [Do(false), Do(false), Do(true)]);
    LastCheckFails(s2);
  }

  lemma LastCheckFails(s: State)
    requires Core(s) && AtStage(s, Verify) && s.pc.job.create
    ensures !CoveredNow(Run(s, [Do(false), Do(false), Do(true)]))
  {
    var s1 := Step(s, Do(false));
    StepCore(s, Do(false));
    var s2 := Step(s1, Do(false));
    StepCore(s1, Do(false));
    assert AtStage(s2, SDrop) && MetadataName in s2.home.entries;
    assert [Do(false), Do(false), Do(true)] == [Do(false)] + ([Do(false)] + [Do(true)]);
    RunCons(s, Do(false), [Do(false)] + [Do(true)]);
    RunCons(s1, Do(false), [Do(true)]);
    RunOne(s2, Do(true));
  }

  /** Up to the rename of the sentinel, nothing was synced. */
  lemma SentinelNamed(s: State, e: Event)
    requires Start(s) && e.Begin? && Enabled(s, e)
    ensures var t := Run(s, [e] + Smooth(4));
            Core(t) && AtStage(t, SSync) && t.data.entries == map[SentinelName := e.sIno] && map[] in t.data.versions
            && t.home == s.home
  {
    StartIsCore(s);
    var s1 := Step(s, e);
    StepCore(s, e);
    RunCons(s, e, Smooth(4));
    var s2 := Step(s1, Do(true));
    StepCore(s1, Do(true));
    assert AtStage(s2, SWrite) && s2.data.entries == map[Temp(e.n) := e.sIno] && map[] in s2.data.versions;
    var s3 := Step(s2, Do(true));
    StepCore(s2, Do(true));
    var s4 := Step(s3, Do(true));
    StepCore(s3, Do(true));
    assert AtStage(s4, SRename) && s4.data == s2.data && s4.pc.job == s1.pc.job;
    var s5 := Step(s4, Do(true));
    StepCore(s4, Do(true));
    RunCons(s1, Do(true), Smooth(3));
    RunCons(s2, Do(true), Smooth(2));
    RunCons(s3, Do(true), Smooth(1));
    RunCons(s4, Do(true), Smooth(0));
  }

  /** A run from a new account: the daemon dies between the sentinel's rename and its sync, the next
      one recovers and binds the account, and then the power fails.  Recovery does not sync the data
      directory, so the listing without the sentinel may come back beside the metadata. */
  lemma RecoveryTrustsTheCache(s: State, e: Event, e': Event)
    requires Start(s) && e.Begin? && Enabled(s, e) && e'.Begin? && Enabled(Run(s, [e] + Smooth(4) + [Crash]), e')
    ensures var t := Run(s, [e] + Smooth(4) + [Crash] + [e'] + Smooth(7));
            && t.result.Done? && Enabled(t, PowerLoss(map[], t.home.entries))
            && !CoveredNow(Step(t, PowerLoss(map[], t.home.entries)))
  {
    SentinelNamed(s, e);
    var s1 := Run(s, [e] + Smooth(4));
    RunConcat(s, [e] + Smooth(4), [Crash]);
    RunOne(s1, Crash);
    var s2 := Step(s1, Crash);
    StepCore(s1, Crash);
    assert Marked(s1.data.entries, s1.files, s1.pc.job.meta);
    assert OnlySentinel(s2.data.entries, s2.files, s2.site.account);
    var s3 := Step(s2, e');
    StepCore(s2, e');
    RunConcat(s, [e] + Smooth(4) + [Crash], [e']);
    RunOne(s2, e');
    RunConcat(s, [e] + Smooth(4) + [Crash] + [e'], Smooth(7));
    SmoothBinds(s3);
  }

  // Recovery ---------------------------------------------------------------------------------------------------

  /** The metadata that recovery rebuilds from the sentinel it finds. */
  function Recovered(s: State): Metadata
    requires OnlySentinel(s.data.entries, s.files, s.site.account)
  {
    MetadataFor(s.files[s.data.entries[SentinelName]].content.s, s.site.dataDir, s.site.inode)
  }

  /** Nothing in the data directory, or the account's sentinel and nothing else. */
  predicate Recoverable(s: State) {
    s.data.entries == map[] || OnlySentinel(s.data.entries, s.files, s.site.account)
  }

  /** Whatever came before: from an empty data directory a new profile is bound, and from one with
      only the sentinel the profile is bound that the sentinel names. */
  lemma RecoveryBinds(s: State, e: Event)
    requires Core(s) && e.Begin? && Enabled(s, e) && MetadataName !in s.home.entries && Recoverable(s)
    ensures var u := Step(s, e);
            && u.pc.At? && Forward(u.pc.stage)
            && var t := Run(u, Smooth(Rank(u.pc.stage)));
            && t.result.Done? && BoundTo(t, u.pc.job.meta)
            && ValidMetadata(u.pc.job.meta, s.site.account, s.site.inode)
            && u.pc.job.meta == if s.data.entries == map[] then NewMetadata(s.site, e.profile, e.createdAt) else Recovered(s)
  {
    StepCore(s, e);
    SmoothBinds(Step(s, e));
  }

  /** No metadata, and a data directory that no attempt accepts. */
  predicate Blocked(s: State) {
    s.pc.Idle? && MetadataName !in s.home.entries && !Recoverable(s)
  }

  lemma {:induction false} BlockedStays(s: State, es: seq<Event>)
    requires Blocked(s) && NoPowerLoss(es)
    ensures var t := Run(s, es); Blocked(t) && t.data == s.data && t.home == s.home && t.files == s.files
    decreases |es|
  {
    if es != [] {
      assert Blocked(Step(s, es[0]));
      BlockedStays(Step(s, es[0]), es[1..]);
    }
  }

  lemma {:induction false} FreshNumber(used: set<nat>) returns (n: nat)
    ensures forall k :: k in used ==> k < n
    decreases used
  {
    if used == {} {
      n := 0;
    } else {
      var k :| k in used;
      var m := FreshNumber(used - {k});
      n := if m > k then m else k + 1;
      assert forall j :: j in used ==> j == k || j in used - {k};
    }
  }

  /** Some later run binds the account. */
  ghost predicate CanBind(s: State) {
    exists es :: NoPowerLoss(es) && MetadataName in Run(s, es).home.entries
  }

  /** From every state that crashes and failures leave without metadata: some continuation binds the
      account if and only if the data directory is empty or holds its sentinel and nothing else.  A
      stray temporary file, or another account's sentinel, blocks it for good. */
  lemma RecoverableExactly(s: State)
    requires Core(s) && s.pc.Idle? && MetadataName !in s.home.entries
    ensures CanBind(s) <==> Recoverable(s)
  {
    if Recoverable(s) {
      var n := FreshNumber(s.names);
      var i := FreshNumber(s.files.Keys);
      var e := Begin(n, i, i + 1, 1, 1);
      RecoveryBinds(s, e);
      var u := Step(s, e);
      var es := [e] + Smooth(Rank(u.pc.stage));
      RunCons(s, e, Smooth(Rank(u.pc.stage)));
      SmoothIsQuiet(Rank(u.pc.stage));
      assert NoPowerLoss(es) && MetadataName in Run(s, es).home.entries;
    } else {
      forall es | NoPowerLoss(es) ensures MetadataName !in Run(s, es).home.entries {
        BlockedStays(s, es);
      }
    }
  }

  lemma {:induction false} SmoothIsQuiet(n: nat)
    ensures NoPowerLoss(Smooth(n))
  {
    if n > 0 {
      SmoothIsQuiet(n - 1);
    }
  }

  /** A crash right after the sentinel's temporary file was made leaves a new account blocked. */
  lemma CrashBlocks(s: State, e: Event)
    requires Start(s) && e.Begin? && Enabled(s, e)
    ensures Blocked(Run(s, [e, Do(true), Crash]))
  {
    var s1 := Step(s, e);
    var s2 := Step(s1, Do(true));
    var s3 := Step(s2, Crash);
    assert [e, Do(true), Crash] == [e] + ([Do(true)] + [Crash]);
    RunCons(s, e, [Do(true)] + [Crash]);
    RunCons(s1, Do(true), [Crash]);
    RunOne(s2, Crash);
    assert Temp(e.n) in s3.data.entries;
  }
}
