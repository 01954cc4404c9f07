/** The documents that bind a WeCom account to its Android data directory, and how a directory of
    such documents survives a crash of the daemon or of the machine. */
module ProfileDocuments {

  // Identifiers and instants compared for equality only; zero is the empty or malformed value.
  type Token = nat

  /** Schema 1 names the device and no path, schema 2 the path and no device. */
  datatype Metadata = Metadata(
    schema: int, account: Token, profile: Token, path: Token, device: Token, inode: Token, createdAt: Token)

  datatype Sentinel = Sentinel(schema: int, account: Token, profile: Token, createdAt: Token)

  const LegacySchema := 1
  const CurrentSchema := 2
  const SentinelSchema := 1

  predicate ValidMetadata(m: Metadata, account: Token, inode: Token) {
    && (m.schema == LegacySchema || m.schema == CurrentSchema)
    && m.account == account && m.profile != 0 && m.createdAt != 0
    && m.inode != 0 && m.inode == inode
    && (m.schema == LegacySchema ==> m.device != 0 && m.path == 0)
    && (m.schema == CurrentSchema ==> m.device == 0 && m.path != 0)
  }

  predicate ValidPath(m: Metadata, dataDir: Token) {
    m.schema == LegacySchema || (dataDir != 0 && m.path == dataDir)
  }

  predicate Matches(s: Sentinel, m: Metadata) {
    && s.schema == SentinelSchema && s.account == m.account
    && s.profile != 0 && s.profile == m.profile && s.createdAt != 0 && s.createdAt == m.createdAt
  }

  predicate Standalone(s: Sentinel, account: Token) {
    s.schema == SentinelSchema && s.account == account && s.profile != 0 && s.createdAt != 0
  }

  function SentinelFor(m: Metadata): Sentinel {
    Sentinel(SentinelSchema, m.account, m.profile, m.createdAt)
  }

  function MetadataFor(s: Sentinel, dataDir: Token, inode: Token): Metadata {
    Metadata(CurrentSchema, s.account, s.profile, dataDir, 0, inode, s.createdAt)
  }

  function Migrated(m: Metadata, dataDir: Token): Metadata {
    m.(schema := CurrentSchema, path := dataDir, device := 0)
  }

  /** Migration keeps who the profile is: it stays valid for the same account and inode, and exactly
      the same sentinels match it. */
  lemma MigrationKeepsIdentity(m: Metadata, account: Token, inode: Token, dataDir: Token, s: Sentinel)
    requires ValidMetadata(m, account, inode) && m.schema == LegacySchema && dataDir != 0
    ensures var c := Migrated(m, dataDir);
            && ValidMetadata(c, account, inode) && ValidPath(c, dataDir) && c.schema == CurrentSchema
            && c.account == m.account && c.profile == m.profile && c.inode == m.inode && c.createdAt == m.createdAt
            && (Matches(s, c) <==> Matches(s, m)) && c != m
  {
  }

  /** A sentinel and the metadata rebuilt from it determine each other. */
  lemma SentinelRoundTrip(m: Metadata, s: Sentinel, account: Token, inode: Token, dataDir: Token)
    requires inode != 0 && dataDir != 0
    ensures ValidMetadata(m, account, inode) && ValidPath(m, dataDir) && m.schema == CurrentSchema ==>
              && MetadataFor(SentinelFor(m), dataDir, inode) == m && Matches(SentinelFor(m), m)
    ensures Standalone(s, account) ==>
              && SentinelFor(MetadataFor(s, dataDir, inode)) == s && Matches(s, MetadataFor(s, dataDir, inode))
              && ValidMetadata(MetadataFor(s, dataDir, inode), account, inode) && ValidPath(MetadataFor(s, dataDir, inode), dataDir)
  {
  }

  // Directories -------------------------------------------------------------------------------------

  type Ino = nat
  datatype Name = MetadataName | SentinelName | Temp(n: nat) | Candidate(n: nat)
  datatype Content = Torn | Meta(m: Metadata) | Mark(s: Sentinel)

  datatype File = File(content: Content, synced: bool)

  type Entries = map<Name, Ino>

  /** `versions` are the listings that a power loss may bring back: all since the last sync. */
  datatype Dir = Dir(entries: Entries, versions: set<Entries>)

  function Changed(d: Dir, entries: Entries): Dir {
    Dir(entries, d.versions + {entries})
  }

  function SyncedDir(d: Dir): Dir {
    Dir(d.entries, {d.entries})
  }

  /** What a power loss leaves of files that were not flushed. */
  function Shaken(files: map<Ino, File>): map<Ino, File> {
    map i | i in files :: if files[i].synced then files[i] else File(Torn, true)
  }
}
