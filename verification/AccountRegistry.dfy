/** The account registry: well-formedness, what each operation does to the list of accounts, and
    why `Resolve` is unambiguous although identifiers and aliases share one namespace. */
module AccountRegistry {
  import opened Common

  type Name = string

  datatype Platform = WeChat | WeCom | OtherPlatform(name: string)

  datatype RuntimeState = Stopped | Starting | AuthRequired | Online | Degraded | Offline

  datatype Status = Status(state: RuntimeState, identity: Option<string>, reason: string, clientVersion: string)

  datatype Account = Account(
    id: Name, alias: Name, platform: Platform, active: bool, deleting: bool, status: Status)

  predicate IsHex(c: char) {
    '0' <= c <= '9' || 'a' <= c <= 'f'
  }

  /** A lower-case version 4 UUID. */
  predicate IsId(s: Name) {
    && |s| == 36
    && (forall i :: 0 <= i < 36 ==>
          if i == 8 || i == 13 || i == 18 || i == 23 then s[i] == '-' else IsHex(s[i]))
    && s[14] == '4' && (s[19] == '8' || s[19] == '9' || s[19] == 'a' || s[19] == 'b')
  }

  /** A letter, then up to 47 letters, digits or dashes. */
  predicate IsAlias(s: Name) {
    && 1 <= |s| <= 48 && 'a' <= s[0] <= 'z'
    && (forall i :: 1 <= i < |s| ==> 'a' <= s[i] <= 'z' || '0' <= s[i] <= '9' || s[i] == '-')
  }

  /** A UUID whose free digits are all `c`. */
  function SampleId(c: char): Name {
    seq(36, i => if i == 8 || i == 13 || i == 18 || i == 23 then '-'
                 else if i == 14 then '4' else if i == 19 then '8' else c)
  }

  /** The two namespaces overlap, so the cross checks between them are not redundant. */
  lemma NamespacesOverlap()
    ensures IsId(SampleId('a')) && IsAlias(SampleId('a'))
  {
  }

  predicate Supported(p: Platform) {
    p == WeChat || p == WeCom
  }

  predicate ValidAccount(a: Account) {
    IsId(a.id) && IsAlias(a.alias) && Supported(a.platform) && a.id != a.alias
  }

  /** No name of one account is a name of the other, in either role. */
  predicate Apart(a: Account, b: Account) {
    a.id != b.id && a.alias != b.alias && a.id != b.alias && a.alias != b.id
  }

  ghost predicate WellFormed(accounts: seq<Account>) {
    && (forall i :: 0 <= i < |accounts| ==> ValidAccount(accounts[i]))
    && (forall i, j :: 0 <= i < j < |accounts| ==> Apart(accounts[i], accounts[j]))
  }

  /** At most one active account per platform. */
  ghost predicate OneActive(accounts: seq<Account>) {
    forall i, j :: 0 <= i < j < |accounts| && accounts[i].active && accounts[j].active ==>
      accounts[i].platform != accounts[j].platform
  }

  ghost predicate OneActiveOn(accounts: seq<Account>, p: Platform) {
    forall i, j | 0 <= i < j < |accounts| && accounts[i].active && accounts[j].active ::
      !(accounts[i].platform == p && accounts[j].platform == p)
  }

  ghost predicate DeletingStopped(accounts: seq<Account>) {
    forall i :: 0 <= i < |accounts| && accounts[i].deleting ==> !accounts[i].active && accounts[i].status.state == Stopped
  }

  /** What `Open` establishes and every operation keeps. */
  ghost predicate Sound(accounts: seq<Account>) {
    WellFormed(accounts) && DeletingStopped(accounts)
  }

  /** What every operation also keeps, but `Open` does not establish. */
  ghost predicate Good(accounts: seq<Account>) {
    Sound(accounts) && OneActive(accounts)
  }

  /** No two accounts of one platform are active without being deleted. */
  ghost predicate OneServing(accounts: seq<Account>) {
    forall i, j | 0 <= i < j < |accounts| && accounts[i].platform == accounts[j].platform ::
      !(accounts[i].active && !accounts[i].deleting && accounts[j].active && !accounts[j].deleting)
  }

  predicate Named(a: Account, v: Name) {
    a.id == v || a.alias == v
  }

  /** `resolveLocked`: the first account with that identifier or alias. */
  function Find(accounts: seq<Account>, v: Name): (r: Option<nat>)
    ensures r.Some? ==> r.value < |accounts| && Named(accounts[r.value], v)
    ensures r.None? ==> forall i :: 0 <= i < |accounts| ==> !Named(accounts[i], v)
  {
    if accounts == [] then None
    else if Named(accounts[0], v) then Some(0)
    else
      var r := Find(accounts[1..], v);
      if r.Some? then Some(r.value + 1) else None
  }

  /** A name resolves to the one account that carries it, in whatever role. */
  lemma ResolveIsUnambiguous(accounts: seq<Account>, v: Name, i: nat)
    requires WellFormed(accounts) && i < |accounts| && Named(accounts[i], v)
    ensures Find(accounts, v) == Some(i)
  {
    forall j | 0 <= j < |accounts| && j != i ensures !Named(accounts[j], v) {
      if j < i { assert Apart(accounts[j], accounts[i]); } else { assert Apart(accounts[i], accounts[j]); }
    }
  }

  // ----- What the operations do, account by account -----

  function Halted(a: Account): Account {
    a.(active := false, status := a.status.(state := Stopped))
  }

  function Normalized(accounts: seq<Account>): (r: seq<Account>)
    ensures |r| == |accounts|
    ensures forall i :: 0 <= i < |r| ==> r[i] == if accounts[i].deleting then Halted(accounts[i]) else accounts[i]
  {
    seq(|accounts|, i requires 0 <= i < |accounts| =>
      if accounts[i].deleting then Halted(accounts[i]) else accounts[i])
  }

  function ActivatedOne(a: Account, id: Name, p: Platform): Account {
    if a.id == id then a.(active := true, status := a.status.(state := Starting))
    else if a.platform == p && a.active then Halted(a)
    else a
  }

  function Activated(accounts: seq<Account>, id: Name, p: Platform): (r: seq<Account>)
    ensures |r| == |accounts|
    ensures forall i :: 0 <= i < |r| ==> r[i] == ActivatedOne(accounts[i], id, p)
  {
    seq(|accounts|, i requires 0 <= i < |accounts| => ActivatedOne(accounts[i], id, p))
  }

  function Removed(accounts: seq<Account>, id: Name): (r: seq<Account>)
    ensures forall a :: a in r <==> a in accounts && a.id != id
    ensures |r| <= |accounts|
  {
    if accounts == [] then []
    else if accounts[0].id == id then Removed(accounts[1..], id)
    else [accounts[0]] + Removed(accounts[1..], id)
  }

  /** Nobody was renamed, added or removed. */
  ghost predicate SameNames(r: seq<Account>, accounts: seq<Account>) {
    |r| == |accounts| && forall i :: 0 <= i < |r| ==>
      r[i].id == accounts[i].id && r[i].alias == accounts[i].alias && r[i].platform == accounts[i].platform
  }

  lemma SameNamesWellFormed(r: seq<Account>, accounts: seq<Account>)
    requires SameNames(r, accounts) && WellFormed(accounts)
    ensures WellFormed(r)
  {
    forall i | 0 <= i < |r| ensures ValidAccount(r[i]) { assert ValidAccount(accounts[i]); }
    forall i, j | 0 <= i < j < |r| ensures Apart(r[i], r[j]) { assert Apart(accounts[i], accounts[j]); }
  }

  /** Normalization keeps every name and never activates anything. */
  lemma NormalizedKeeps(accounts: seq<Account>)
    ensures WellFormed(accounts) ==> WellFormed(Normalized(accounts))
    ensures OneActive(Normalized(accounts)) <==> OneServing(accounts)
    ensures DeletingStopped(Normalized(accounts))
    ensures DeletingStopped(accounts) ==> Normalized(accounts) == accounts
  {
    if WellFormed(accounts) { SameNamesWellFormed(Normalized(accounts), accounts); }
  }

  /** After activation the target is the only active account of its platform, and no account of
      another platform was touched. */
  lemma ActivatedAlone(accounts: seq<Account>, k: nat)
    requires WellFormed(accounts) && k < |accounts|
    ensures var r := Activated(accounts, accounts[k].id, accounts[k].platform);
            && r[k] == accounts[k].(active := true, status := accounts[k].status.(state := Starting))
            && (forall i :: 0 <= i < |r| && i != k && accounts[i].platform == accounts[k].platform && accounts[i].active ==>
                  r[i] == accounts[i].(active := false, status := accounts[i].status.(state := Stopped)))
            && (forall i :: 0 <= i < |r| && i != k && accounts[i].platform == accounts[k].platform && !accounts[i].active ==>
                  r[i] == accounts[i])
            && (forall i :: 0 <= i < |r| && accounts[i].platform != accounts[k].platform ==> r[i] == accounts[i])
  {
    forall i | 0 <= i < |accounts| && i != k ensures accounts[i].id != accounts[k].id {
      if i < k { assert Apart(accounts[i], accounts[k]); } else { assert Apart(accounts[k], accounts[i]); }
    }
  }

  lemma ActivatedKeeps(accounts: seq<Account>, k: nat)
    requires Sound(accounts) && k < |accounts| && !accounts[k].deleting
    ensures Sound(Activated(accounts, accounts[k].id, accounts[k].platform))
    ensures OneActive(accounts) ==> OneActive(Activated(accounts, accounts[k].id, accounts[k].platform))
    ensures OneActiveOn(Activated(accounts, accounts[k].id, accounts[k].platform), accounts[k].platform)
  {
    var r := Activated(accounts, accounts[k].id, accounts[k].platform);
    SameNamesWellFormed(r, accounts);
    ActivatedAlone(accounts, k);
    forall i | 0 <= i < |r| && r[i].deleting ensures !r[i].active && r[i].status.state == Stopped {
      assert accounts[i].deleting && accounts[i].id != accounts[k].id;
    }
  }

  /** Replacing one account by one with the same names and no more activity keeps the registry. */
  lemma QuietUpdateKeeps(accounts: seq<Account>, k: nat, a: Account)
    requires Sound(accounts) && k < |accounts|
    requires a.id == accounts[k].id && a.alias == accounts[k].alias && a.platform == accounts[k].platform
    requires (a.active ==> accounts[k].active) && (a.deleting ==> !a.active && a.status.state == Stopped)
    ensures Sound(accounts[k := a]) && (OneActive(accounts) ==> OneActive(accounts[k := a]))
  {
    var r := accounts[k := a];
    forall i, j | 0 <= i < j < |r| ensures Apart(r[i], r[j]) { assert Apart(accounts[i], accounts[j]); }
  }

  lemma AppendKeeps(accounts: seq<Account>, a: Account)
    requires Sound(accounts) && ValidAccount(a) && !a.active && !a.deleting
    requires forall i :: 0 <= i < |accounts| ==> Apart(accounts[i], a)
    ensures Sound(accounts + [a]) && (OneActive(accounts) ==> OneActive(accounts + [a]))
  {
  }

  /** Removal takes out the account of that identifier, and the others stay in their order. */
  lemma {:induction false} RemovedOne(accounts: seq<Account>, k: nat)
    requires k < |accounts| && forall i :: 0 <= i < |accounts| && i != k ==> accounts[i].id != accounts[k].id
    ensures Removed(accounts, accounts[k].id) == accounts[..k] + accounts[k + 1..]
  {
    var id, rest := accounts[k].id, accounts[1..];
    if k == 0 {
      NothingRemoved(rest, id);
    } else {
      RemovedOne(rest, k - 1);
      SkipOne(accounts, k);
    }
  }

  lemma SkipOne(accounts: seq<Account>, k: nat)
    requires 0 < k < |accounts|
    ensures [accounts[0]] + (accounts[1..][..k - 1] + accounts[1..][k..]) == accounts[..k] + accounts[k + 1..]
  {
  }

  lemma {:induction false} NothingRemoved(accounts: seq<Account>, id: Name)
    requires forall i :: 0 <= i < |accounts| ==> accounts[i].id != id
    ensures Removed(accounts, id) == accounts
  {
    if accounts != [] {
      NothingRemoved(accounts[1..], id);
    }
  }

  /** Removal keeps the names of everybody else and how many are active. */
  lemma {:induction false} RemovedKeeps(accounts: seq<Account>, id: Name)
    requires Sound(accounts)
    ensures Sound(Removed(accounts, id)) && (OneActive(accounts) ==> OneActive(Removed(accounts, id)))
  {
    if accounts != [] {
      var rest := accounts[1..];
      RemovedKeeps(rest, id);
      if accounts[0].id != id {
        forall a | a in Removed(rest, id)
          ensures Apart(accounts[0], a) && (OneActive(accounts) && accounts[0].active && a.active ==> accounts[0].platform != a.platform)
        {
          var k :| 0 <= k < |rest| && rest[k] == a;
          assert accounts[k + 1] == a;
        }
        assert OneActive(accounts) ==> OneActive(rest);
        PrependKeeps(accounts[0], Removed(rest, id));
      }
    }
  }

  lemma PrependKeeps(a: Account, r: seq<Account>)
    requires Sound(r) && ValidAccount(a) && (a.deleting ==> !a.active && a.status.state == Stopped)
    requires forall b :: b in r ==> Apart(a, b)
    ensures Sound([a] + r)
    ensures OneActive(r) && (forall b :: b in r && a.active && b.active ==> a.platform != b.platform) ==> OneActive([a] + r)
  {
    var s := [a] + r;
    assert forall j :: 1 <= j < |s| ==> s[j] == r[j - 1] && s[j] in r;
  }
}
