/** The account store object: `Open` and the registry operations, with a write that can fail. */
module AccountStore {
  import opened Common
  import opened AccountRegistry

  datatype Outcome<T> = Ok(value: T) | NotFound | Deleting | NotDeleting | Refused | WriteFailed

  ghost function IdsTo(file: seq<Account>, n: nat): set<Name>
    requires n <= |file|
  {
    if n == 0 then {} else IdsTo(file, n - 1) + {file[n - 1].id}
  }

  ghost function AliasesTo(file: seq<Account>, n: nat): set<Name>
    requires n <= |file|
  {
    if n == 0 then {} else AliasesTo(file, n - 1) + {file[n - 1].alias}
  }

  /** The first `n` accounts pass the pairwise definition. */
  ghost predicate FineTo(file: seq<Account>, n: nat)
    requires n <= |file|
  {
    n == 0 || (FineTo(file, n - 1) && ValidAccount(file[n - 1]) && ApartFromEarlier(file, n - 1))
  }

  ghost predicate ApartFromEarlier(file: seq<Account>, n: nat)
    requires n < |file|
  {
    forall k :: 0 <= k < n ==> Apart(file[k], file[n])
  }

  lemma {:induction false} SeenNames(file: seq<Account>, n: nat)
    requires n <= |file|
    ensures forall v :: v in IdsTo(file, n) <==> exists k :: 0 <= k < n && file[k].id == v
    ensures forall v :: v in AliasesTo(file, n) <==> exists k :: 0 <= k < n && file[k].alias == v
  {
    if n > 0 { SeenNames(file, n - 1); }
  }

  /** The four set lookups decide distinctness from every earlier account. */
  lemma FreshNames(file: seq<Account>, n: nat)
    requires n < |file|
    ensures ApartFromEarlier(file, n) <==>
            (&& file[n].id !in IdsTo(file, n) && file[n].alias !in AliasesTo(file, n)
             && file[n].id !in AliasesTo(file, n) && file[n].alias !in IdsTo(file, n))
  {
    SeenNames(file, n);
  }

  lemma {:induction false} FineToTells(file: seq<Account>, n: nat)
    requires n <= |file|
    ensures FineTo(file, n) <==>
            (&& (forall k :: 0 <= k < n ==> ValidAccount(file[k]))
             && (forall j, k :: 0 <= j < k < n ==> Apart(file[j], file[k])))
  {
    if n > 0 { FineToTells(file, n - 1); }
  }

  ghost predicate AnyUnstopped(file: seq<Account>, n: nat)
    requires n <= |file|
  {
    n > 0 && (AnyUnstopped(file, n - 1) || Unstopped(file[n - 1]))
  }

  lemma {:induction false} UnstoppedTells(file: seq<Account>, n: nat)
    requires n <= |file|
    ensures AnyUnstopped(file, n) <==> !DeletingStopped(file[..n])
  {
    if n > 0 {
      UnstoppedTells(file, n - 1);
      assert file[..n] == file[..n - 1] + [file[n - 1]];
    }
  }

  /** The accounts after the first `n` have been gone through. */
  ghost function HaltedTo(file: seq<Account>, n: nat): (r: seq<Account>)
    requires n <= |file|
    ensures |r| == |file|
  {
    if n == 0 then file
    else if Unstopped(file[n - 1]) then HaltedTo(file, n - 1)[n - 1 := Halted(file[n - 1])]
    else HaltedTo(file, n - 1)
  }

  lemma {:induction false} HaltedToIs(file: seq<Account>, n: nat)
    requires n <= |file|
    ensures forall k :: 0 <= k < |file| ==> HaltedTo(file, n)[k] == if k < n && file[k].deleting then Halted(file[k]) else file[k]
  {
    if n > 0 {
      HaltedToIs(file, n - 1);
    }
  }

  lemma {:induction false} FineShrinks(file: seq<Account>, i: nat, n: nat)
    requires i <= n <= |file| && FineTo(file, n)
    ensures FineTo(file, i)
    decreases n
  {
    if i < n {
      FineShrinks(file, i, n - 1);
    }
  }

  /** The one pass, with two sets of names seen so far; whatever is being deleted is stopped. */
  method Scan(file: seq<Account>) returns (fine: bool, data: seq<Account>, normalized: bool)
    ensures fine <==> FineTo(file, |file|)
    ensures fine ==> data == HaltedTo(file, |file|) && (normalized <==> AnyUnstopped(file, |file|))
  {
    var ids: set<Name>, aliases: set<Name> := {}, {};
    data, normalized := file, false;
    var i := 0;
    while i < |file|
      invariant 0 <= i <= |file|
      invariant FineTo(file, i) && ids == IdsTo(file, i) && aliases == AliasesTo(file, i)
      invariant data == HaltedTo(file, i)
      invariant normalized <==> AnyUnstopped(file, i)
    {
      var item := file[i];
      FreshNames(file, i);
      if !ValidAccount(item) ||
         item.id in ids || item.alias in aliases || item.id in aliases || item.alias in ids {
        if FineTo(file, |file|) {
          FineShrinks(file, i + 1, |file|);
        }
        return false, data, normalized;
      }
      ids := ids + {item.id};
      aliases := aliases + {item.alias};
      if Unstopped(item) {
        data := data[i := Halted(item)];
        normalized := true;
      }
      i := i + 1;
    }
    fine := true;
  }

  /** What the pass decides and leaves behind. */
  lemma PassTells(file: seq<Account>)
    ensures FineTo(file, |file|) <==> WellFormed(file)
    ensures AnyUnstopped(file, |file|) <==> !DeletingStopped(file)
    ensures HaltedTo(file, |file|) == Normalized(file)
  {
    FineToTells(file, |file|);
    UnstoppedTells(file, |file|);
    HaltedIsNormalized(file);
    assert file[..|file|] == file;
  }

  lemma HaltedIsNormalized(file: seq<Account>)
    ensures HaltedTo(file, |file|) == Normalized(file)
  {
    HaltedToIs(file, |file|);
  }

  /** `Open`'s validation accepts exactly the well-formed registries, and writes the registry back
      when something that is being deleted had to be stopped. */
  method Load(file: seq<Account>, writable: bool) returns (r: Outcome<seq<Account>>)
    ensures r.Ok? <==> WellFormed(file) && (writable || DeletingStopped(file))
    ensures r.Refused? <==> !WellFormed(file)
    ensures r.Ok? ==> r.value == Normalized(file) && Sound(r.value) && (Good(r.value) <==> OneServing(file))
  {
    var fine, data, normalized := Scan(file);
    PassTells(file);
    if !fine {
      return Refused;
    }
    NormalizedKeeps(file);
    if normalized && !writable {
      return WriteFailed;
    }
    return Ok(data);
  }

  /** Marked for deletion but not yet stopped. */
  predicate Unstopped(a: Account) {
    a.deleting && (a.active || a.status.state != Stopped)
  }

  /** `Open` does not look at activity: any two active accounts of one platform with different
      names are accepted and kept as they are.  Such files exist. */
  lemma OpenAcceptsTwoActive(a: Account, b: Account)
    requires ValidAccount(a) && ValidAccount(b) && Apart(a, b)
    requires a.active && b.active && !a.deleting && !b.deleting && a.platform == b.platform
    ensures WellFormed([a, b]) && Normalized([a, b]) == [a, b] && !OneActive([a, b])
    ensures ValidAccount(Sample('0', "x")) && ValidAccount(Sample('1', "y")) && Apart(Sample('0', "x"), Sample('1', "y"))
  {
    assert [a, b][0].active && [a, b][1].active;
    assert SampleId('0')[0] != SampleId('1')[0];
    assert "x"[0] != "y"[0] && |SampleId('0')| == |SampleId('1')| == 36;
  }

  function Sample(c: char, alias: Name): Account {
    Account(SampleId(c), alias, WeChat, true, false, Status(Online, None, "", ""))
  }

  /** An account that still serves has its state directory. */
  ghost predicate Housed(accounts: seq<Account>, dirs: set<Name>) {
    forall i :: 0 <= i < |accounts| && !accounts[i].deleting ==> accounts[i].id in dirs
  }

  /** Where the account with this identifier stands. */
  ghost function PlaceOf(accounts: seq<Account>, id: Name): (r: Option<nat>)
    ensures r.Some? ==> r.value < |accounts| && accounts[r.value].id == id
    ensures r.None? ==> forall i :: 0 <= i < |accounts| ==> accounts[i].id != id
  {
    if accounts == [] then None
    else if accounts[0].id == id then Some(0)
    else
      var r := PlaceOf(accounts[1..], id);
      if r.Some? then Some(r.value + 1) else None
  }

  lemma PlaceIsUnique(accounts: seq<Account>, k: nat)
    requires WellFormed(accounts) && k < |accounts|
    ensures PlaceOf(accounts, accounts[k].id) == Some(k)
  {
    var p := PlaceOf(accounts, accounts[k].id).value;
    assert p < k ==> Apart(accounts[p], accounts[k]);
    assert p > k ==> Apart(accounts[k], accounts[p]);
  }

  /** What activation does to a registry, its directories included. */
  lemma ActivationKeeps(accounts: seq<Account>, k: nat, dirs: set<Name>)
    requires Sound(accounts) && k < |accounts| && !accounts[k].deleting
    ensures var next, a := Activated(accounts, accounts[k].id, accounts[k].platform), accounts[k];
            && Sound(next) && (OneActive(accounts) ==> OneActive(next)) && OneActiveOn(next, a.platform)
            && (Housed(accounts, dirs) ==> Housed(next, dirs))
            && ActivatedOne(a, a.id, a.platform) in next
  {
    ActivatedKeeps(accounts, k);
    assert Activated(accounts, accounts[k].id, accounts[k].platform)[k] == ActivatedOne(accounts[k], accounts[k].id, accounts[k].platform);
  }

  /** What a new account with unused names does to a registry. */
  lemma AdditionKeeps(accounts: seq<Account>, a: Account, dirs: set<Name>)
    requires Sound(accounts) && ValidAccount(a) && !a.active && !a.deleting
    requires Find(accounts, a.alias).None? && (forall b :: b in accounts ==> !Named(b, a.id))
    ensures Sound(accounts + [a]) && (OneActive(accounts) ==> OneActive(accounts + [a]))
    ensures Housed(accounts, dirs) ==> Housed(accounts + [a], dirs + {a.id})
    ensures forall i :: 0 <= i < |accounts| ==> accounts[i].id != a.id
  {
    assert forall i :: 0 <= i < |accounts| ==> accounts[i] in accounts;
    AppendKeeps(accounts, a);
  }

  class Store {
    var accounts: seq<Account>   // s.data
    var disk: seq<Account>       // the registry file
    var dirs: set<Name>          // whole state directories under the accounts root
    var rubble: set<Name>        // state directories that are there in part

    /** Memory is the last successful write, and it is what `Open` accepts. */
    ghost predicate Valid()
      reads this
    {
      accounts == disk && Sound(accounts)
    }

    /** What held of the registry and its directories still holds. */
    twostate predicate Kept()
      reads this
    {
      && (old(OneActive(accounts)) ==> OneActive(accounts))
      && (old(Housed(accounts, dirs)) ==> Housed(accounts, dirs))
    }

    /** A store on any registry that `Load` returns. */
    constructor (file: seq<Account>, stateDirs: set<Name>, partial: set<Name>)
      requires Sound(file)
      ensures Valid() && accounts == file && dirs == stateDirs && rubble == partial
    {
      accounts, disk, dirs, rubble := file, file, stateDirs, partial;
    }

    /** `saveDataLocked` then `s.data = next`: an atomic replacement or nothing. */
    method Replace(next: seq<Account>, writable: bool) returns (ok: bool)
      requires Valid() && Sound(next)
      modifies this`accounts, this`disk
      ensures Valid() && ok == writable && accounts == if ok then next else old(accounts)
    {
      ok := writable;
      if ok {
        disk := next;
        accounts := next;
      }
    }

    method Resolve(value: Name) returns (r: Outcome<Account>)
      requires Valid()
      ensures r == if Find(accounts, value).Some? then Ok(accounts[Find(accounts, value).value]) else NotFound
      ensures forall i :: 0 <= i < |accounts| && Named(accounts[i], value) ==> r == Ok(accounts[i])
    {
      var i := 0;
      r := NotFound;
      while i < |accounts|
        invariant 0 <= i <= |accounts|
        invariant forall k :: 0 <= k < i ==> !Named(accounts[k], value)
      {
        if accounts[i].id == value || accounts[i].alias == value {
          ResolveIsUnambiguous(accounts, value, i);
          r := Ok(accounts[i]);
          break;
        }
        i := i + 1;
      }
      forall j | 0 <= j < |accounts| && Named(accounts[j], value) ensures r == Ok(accounts[j]) {
        ResolveIsUnambiguous(accounts, value, j);
      }
    }

    /** `nextAccountIDLocked`: the first usable identifier among 128 generated ones; looking up the
        directory of a candidate may fail, which ends the search. */
    method NextAccountId(alias: Name, generated: seq<Name>, faults: set<Name>) returns (id: Option<Name>)
      requires Valid()
      ensures id == Chosen(accounts, dirs + rubble, faults, alias, generated, 0)
      ensures id.Some? ==> id.value in generated && Usable(accounts, dirs + rubble, alias, id.value)
      ensures id.Some? <==> exists k :: Serves(accounts, dirs + rubble, faults, alias, generated, k)
    {
      ChosenExactly(accounts, dirs + rubble, faults, alias, generated, 0);
      var attempt := 0;
      while attempt < 128 && attempt < |generated|
        invariant 0 <= attempt <= |generated|
        invariant Chosen(accounts, dirs + rubble, faults, alias, generated, attempt)
               == Chosen(accounts, dirs + rubble, faults, alias, generated, 0)
      {
        var id := generated[attempt];
        if Candidate(accounts, alias, id) {
          if id in faults {
            return None;
          }
          if id !in dirs && id !in rubble {
            return Some(id);
          }
        }
        attempt := attempt + 1;
      }
      return None;
    }

    /** `Add`: both directories exist before the registry names the account.  It succeeds exactly
        when alias and platform are legal, the alias is free, an identifier was found, and neither
        directory nor write fails; a failure that cleans up leaves everything as it was. */
    method Add(alias: Name, platform: Platform, generated: seq<Name>, faults: set<Name>,
               mkdir: bool, mkdirProfile: bool, writable: bool, cleanup: Erasure)
      returns (r: Outcome<Account>)
      requires Valid()
      modifies this
      ensures Valid() && Kept() && old(dirs) <= dirs
      ensures r.Refused? <==> !IsAlias(alias) || !Supported(platform) || Find(old(accounts), alias).Some?
                              || Chosen(old(accounts), old(dirs + rubble), faults, alias, generated, 0).None? || !mkdir || !mkdirProfile
      ensures !r.Refused? ==> (r.Ok? <==> writable) && (r.WriteFailed? <==> !writable)
      ensures r.Ok? ==> accounts == old(accounts) + [r.value] && r.value.alias == alias && r.value.platform == platform
                        && r.value.id in dirs && r.value.id !in old(dirs) && !r.value.active && !r.value.deleting
                        && r.value.status == Status(Stopped, None, "", "")
      ensures !r.Ok? ==> accounts == old(accounts) && (cleanup.Gone? ==> dirs == old(dirs) && rubble == old(rubble))
    {
      if !IsAlias(alias) || !Supported(platform) {
        return Refused;
      }
      var clash := Resolve(alias);
      if clash.Ok? {
        return Refused;
      }
      var id := NextAccountId(alias, generated, faults);
      if id.None? || !mkdir {
        return Refused;
      }
      r := Install(id.value, alias, platform, mkdirProfile, writable, cleanup);
    }

    /** From the new directory to the registered account. */
    method Install(id: Name, alias: Name, platform: Platform, mkdirProfile: bool, writable: bool, cleanup: Erasure)
      returns (r: Outcome<Account>)
      requires Valid() && IsAlias(alias) && Supported(platform) && Find(accounts, alias).None?
      requires Usable(accounts, dirs + rubble, alias, id)
      modifies this
      ensures Valid() && Kept() && old(dirs) <= dirs
      ensures r == if !mkdirProfile then Refused else if !writable then WriteFailed else Ok(NewAccount(id, alias, platform))
      ensures r.Ok? ==> accounts == old(accounts) + [r.value] && dirs == old(dirs) + {id} && rubble == old(rubble)
      ensures !r.Ok? ==> accounts == old(accounts) && (cleanup.Gone? ==> dirs == old(dirs) && rubble == old(rubble))
    {
      rubble := rubble + {id};
      if !mkdirProfile {
        RemoveDir(id, cleanup);
        return Refused;
      }
      r := Enroll(NewAccount(id, alias, platform), writable, cleanup);
    }

    /** Both directories exist, so the account may be registered. */
    method Enroll(account: Account, writable: bool, cleanup: Erasure) returns (r: Outcome<Account>)
      requires Valid() && ValidAccount(account) && !account.active && !account.deleting && account.id !in dirs
      requires Find(accounts, account.alias).None? && (forall b :: b in accounts ==> !Named(b, account.id))
      modifies this
      ensures Valid() && Kept() && old(dirs) <= dirs && r == if writable then Ok(account) else WriteFailed
      ensures r.Ok? ==> accounts == old(accounts) + [account] && dirs == old(dirs) + {account.id} && rubble == old(rubble) - {account.id}
      ensures !r.Ok? ==> accounts == old(accounts) && (cleanup.Gone? ==> dirs == old(dirs) && rubble == old(rubble) - {account.id})
    {
      AdditionKeeps(accounts, account, dirs);
      dirs, rubble := dirs + {account.id}, rubble - {account.id};
      r := Register(account, writable, cleanup);
    }

    /** The registry write, and the removal of the directory when it fails. */
    method Register(account: Account, writable: bool, cleanup: Erasure) returns (r: Outcome<Account>)
      requires Valid() && Sound(accounts + [account]) && forall i :: 0 <= i < |accounts| ==> accounts[i].id != account.id
      modifies this
      ensures Valid() && r == if writable then Ok(account) else WriteFailed
      ensures r.Ok? ==> accounts == old(accounts) + [account] && dirs == old(dirs) && rubble == old(rubble)
      ensures !r.Ok? ==> accounts == old(accounts) && Kept() && old(dirs) - {account.id} <= dirs
      ensures !r.Ok? && cleanup.Gone? ==> dirs == old(dirs) - {account.id} && rubble == old(rubble) - {account.id}
    {
      var ok := Replace(accounts + [account], writable);
      if !ok {
        RemoveDir(account.id, cleanup);
        return WriteFailed;
      }
      return Ok(account);
    }

    /** os.RemoveAll of a state directory, which may fail part of the way. */
    method RemoveDir(id: Name, erasure: Erasure)
      modifies this`dirs, this`rubble
      ensures dirs == if erasure.Untouched? then old(dirs) else old(dirs) - {id}
      ensures rubble == match erasure
                        case Gone => old(rubble) - {id}
                        case Partly => old(rubble) + {id}
                        case Untouched => old(rubble)
      ensures (forall i :: 0 <= i < |accounts| && accounts[i].id == id ==> accounts[i].deleting) ==> Kept()
    {
      match erasure
      case Gone => dirs, rubble := dirs - {id}, rubble - {id};
      case Partly => dirs, rubble := dirs - {id}, rubble + {id};
      case Untouched =>
    }

    /** The loop over the slots: the target goes on, every other active account of its platform off. */
    method ActivateSlots(id: Name, platform: Platform) returns (next: seq<Account>)
      ensures next == Activated(accounts, id, platform)
    {
      next := accounts;
      var i := 0;
      while i < |next|
        invariant 0 <= i <= |next| == |accounts|
        invariant forall j :: 0 <= j < i ==> next[j] == ActivatedOne(accounts[j], id, platform)
        invariant forall j :: i <= j < |next| ==> next[j] == accounts[j]
      {
        if next[i].platform == platform && next[i].active && next[i].id != id {
          next := next[i := Halted(next[i])];
        }
        if next[i].id == id {
          next := next[i := next[i].(active := true, status := next[i].status.(state := Starting))];
        }
        i := i + 1;
      }
    }

    /** The write that activates the account at place `k`. */
    method SwitchTo(a: Account, ghost k: nat, writable: bool) returns (ok: bool)
      requires Valid() && k < |accounts| && accounts[k] == a && !a.deleting
      modifies this`accounts, this`disk
      ensures Valid() && Kept() && ok == writable
      ensures accounts == if ok then Activated(old(accounts), a.id, a.platform) else old(accounts)
      ensures ok ==> ActivatedOne(a, a.id, a.platform) in accounts && OneActiveOn(accounts, a.platform)
    {
      var next := ActivateSlots(a.id, a.platform);
      ActivationKeeps(accounts, k, dirs);
      ok := Replace(next, writable);
    }

    /** `Activate`: on success the account is the only active one of its platform, whatever the
        registry was before. */
    method Activate(value: Name, writable: bool) returns (r: Outcome<Account>)
      requires Valid()
      modifies this`accounts, this`disk
      ensures Valid() && Kept()
      ensures r == match Find(old(accounts), value)
                   case None => NotFound
                   case Some(k) =>
                     var a := old(accounts)[k];
                     if a.deleting then Deleting else if !writable then WriteFailed
                     else Ok(a.(active := true, status := a.status.(state := Starting)))
      ensures accounts == if r.Ok? then Activated(old(accounts), r.value.id, r.value.platform) else old(accounts)
      ensures r.Ok? ==> r.value in accounts && r.value.active && r.value.status.state == Starting && OneActiveOn(accounts, r.value.platform)
    {
      var target := Resolve(value);
      if !target.Ok? {
        return NotFound;
      }
      ghost var k := Find(accounts, value).value;
      if target.value.deleting {
        return Deleting;
      }
      var ok := SwitchTo(target.value, k, writable);
      return if ok then Ok(ActivatedOne(target.value, target.value.id, target.value.platform)) else WriteFailed;
    }

    method IndexOf(id: Name) returns (k: Option<nat>)
      requires Valid()
      ensures k == PlaceOf(accounts, id)
    {
      var i := 0;
      while i < |accounts|
        invariant 0 <= i <= |accounts|
        invariant forall j :: 0 <= j < i ==> accounts[j].id != id
      {
        if accounts[i].id == id {
          PlaceIsUnique(accounts, i);
          return Some(i);
        }
        i := i + 1;
      }
      return None;
    }

    /** Replace one account by a quieter version of itself. */
    method Update(k: nat, a: Account, writable: bool) returns (ok: bool)
      requires Valid() && k < |accounts|
      requires a.id == accounts[k].id && a.alias == accounts[k].alias && a.platform == accounts[k].platform
      requires (a.active ==> accounts[k].active) && (a.deleting ==> !a.active && a.status.state == Stopped)
      requires !a.deleting ==> !accounts[k].deleting
      modifies this`accounts, this`disk
      ensures Valid() && Kept() && ok == writable && accounts == if ok then old(accounts)[k := a] else old(accounts)
    {
      QuietUpdateKeeps(accounts, k, a);
      ok := Replace(accounts[k := a], writable);
    }

    /** `Deactivate`: stops exactly the named account, unless it is being deleted. */
    method Deactivate(value: Name, writable: bool) returns (r: Outcome<Account>)
      requires Valid()
      modifies this`accounts, this`disk
      ensures Valid() && Kept()
      ensures r == match Find(old(accounts), value)
                   case None => NotFound
                   case Some(k) =>
                     if old(accounts)[k].deleting then Deleting
                     else if !writable then WriteFailed
                     else Ok(old(accounts)[k].(active := false, status := old(accounts)[k].status.(state := Stopped)))
      ensures accounts == if r.Ok? then old(accounts)[Find(old(accounts), value).value := r.value] else old(accounts)
      ensures r.Ok? ==> !r.value.active && !r.value.deleting && r.value.status.state == Stopped && Named(r.value, value)
    {
      var target := Resolve(value);
      if !target.Ok? {
        return NotFound;
      }
      if target.value.deleting {
        return Deleting;
      }
      PlaceIsUnique(accounts, Find(accounts, value).value);
      var k := IndexOf(target.value.id);
      var ok := Update(k.value, Halted(target.value), writable);
      return if ok then Ok(Halted(target.value)) else WriteFailed;
    }

    /** `UpdateStatus` takes an exact identifier. */
    method UpdateStatus(id: Name, status: Status, writable: bool) returns (r: Outcome<()>)
      requires Valid()
      modifies this`accounts, this`disk
      ensures Valid() && Kept()
      ensures r == match PlaceOf(old(accounts), id)
                   case None => NotFound
                   case Some(k) => if old(accounts)[k].deleting then Deleting else if !writable then WriteFailed else Ok(())
      ensures accounts == if r.Ok? then
                var k := PlaceOf(old(accounts), id).value; old(accounts)[k := old(accounts)[k].(status := status)]
              else old(accounts)
    {
      var k := IndexOf(id);
      if k.None? {
        return NotFound;
      }
      if accounts[k.value].deleting {
        return Deleting;
      }
      var ok := Update(k.value, accounts[k.value].(status := status), writable);
      return if ok then Ok(()) else WriteFailed;
    }

    /** `BeginDelete`: marks an inactive account; an account that an earlier attempt marked is
        found again without a write. */
    method BeginDelete(value: Name, writable: bool) returns (r: Outcome<Account>)
      requires Valid()
      modifies this`accounts, this`disk
      ensures Valid() && Kept()
      ensures r == match Find(old(accounts), value)
                   case None => NotFound
                   case Some(k) =>
                     if old(accounts)[k].active then Refused
                     else if old(accounts)[k].deleting then Ok(old(accounts)[k])
                     else if !writable then WriteFailed
                     else Ok(old(accounts)[k].(deleting := true, active := false,
                                               status := old(accounts)[k].status.(state := Stopped, reason := "")))
      ensures accounts == if r.Ok? then old(accounts)[Find(old(accounts), value).value := r.value] else old(accounts)
      ensures r.Ok? ==> r.value.deleting && !r.value.active && r.value.status.state == Stopped && Named(r.value, value)
    {
      var target := Resolve(value);
      if !target.Ok? {
        return NotFound;
      }
      if target.value.active {
        return Refused;
      }
      PlaceIsUnique(accounts, Find(accounts, value).value);
      var k := IndexOf(target.value.id);
      if target.value.deleting {
        assert accounts == accounts[k.value := Marked(target.value)];
        return target;
      }
      var ok := Update(k.value, Marked(target.value), writable);
      return if ok then Ok(Marked(target.value)) else WriteFailed;
    }

    /** `RecordDeleteFailure`: visible, retryable, still out of service. */
    method RecordDeleteFailure(id: Name, reason: string, writable: bool) returns (r: Outcome<()>)
      requires Valid()
      modifies this`accounts, this`disk
      ensures Valid() && Kept()
      ensures r == match PlaceOf(old(accounts), id)
                   case None => NotFound
                   case Some(k) => if !old(accounts)[k].deleting then NotDeleting else if !writable then WriteFailed else Ok(())
      ensures accounts == if r.Ok? then
                var k := PlaceOf(old(accounts), id).value; old(accounts)[k := old(accounts)[k].(status := old(accounts)[k].status.(reason := reason))]
              else old(accounts)
    {
      var k := IndexOf(id);
      if k.None? {
        return NotFound;
      }
      if !accounts[k.value].deleting {
        return NotDeleting;
      }
      var ok := Update(k.value, Blamed(accounts[k.value], reason), writable);
      return if ok then Ok(()) else WriteFailed;
    }

    /** `FinalizeDelete`: state first, marker last. */
    method FinalizeDelete(value: Name, erasure: Erasure, writable: bool) returns (r: Outcome<Account>)
      requires Valid()
      modifies this
      ensures Valid() && Kept()
      ensures r == match Find(old(accounts), value)
                   case None => NotFound
                   case Some(k) =>
                     if !old(accounts)[k].deleting then NotDeleting
                     else if !erasure.Gone? then Refused else if !writable then WriteFailed else Ok(old(accounts)[k])
      ensures accounts == if r.Ok? then
                var k := Find(old(accounts), value).value; old(accounts)[..k] + old(accounts)[k + 1..]
              else old(accounts)
      ensures (r.NotFound? || r.NotDeleting? ==> dirs == old(dirs) && rubble == old(rubble))
      ensures !r.NotFound? && !r.NotDeleting? ==>
                var id := old(accounts)[Find(old(accounts), value).value].id;
                && dirs == (if erasure.Untouched? then old(dirs) else old(dirs) - {id})
                && (id in rubble <==> if erasure.Untouched? then id in old(rubble) else erasure.Partly?)
    {
      var target := Resolve(value);
      if !target.Ok? {
        return NotFound;
      }
      if !target.value.deleting {
        return NotDeleting;
      }
      r := Erase(target.value, Find(accounts, value).value, erasure, writable);
    }

    /** The state of the account at `place` goes, then the account. */
    method Erase(a: Account, ghost place: nat, erasure: Erasure, writable: bool) returns (r: Outcome<Account>)
      requires Valid() && place < |accounts| && accounts[place] == a && a.deleting
      modifies this
      ensures Valid() && Kept() && r == if !erasure.Gone? then Refused else if !writable then WriteFailed else Ok(a)
      ensures accounts == if r.Ok? then Removed(old(accounts), a.id) else old(accounts)
      ensures dirs == if erasure.Untouched? then old(dirs) else old(dirs) - {a.id}
      ensures a.id in rubble <==> if erasure.Untouched? then a.id in old(rubble) else erasure.Partly?
      ensures r.Ok? ==> accounts == old(accounts)[..place] + old(accounts)[place + 1..]
    {
      DeletingHere(accounts, place);
      IdsDiffer(accounts, place);
      RemovedOne(accounts, place);
      RemoveDir(a.id, erasure);
      if !erasure.Gone? {
        return Refused;
      }
      RemovedKeeps(accounts, a.id);
      RemovedHoused(accounts, a.id, dirs);
      var ok := Replace(Removed(accounts, a.id), writable);
      return if ok then Ok(a) else WriteFailed;
    }
  }

  /** Whoever has the identifier of an account that is being deleted is that account. */
  lemma DeletingHere(accounts: seq<Account>, place: nat)
    requires WellFormed(accounts) && place < |accounts| && accounts[place].deleting
    ensures forall i :: 0 <= i < |accounts| && accounts[i].id == accounts[place].id ==> accounts[i].deleting
  {
    forall i | 0 <= i < |accounts| && accounts[i].id == accounts[place].id ensures accounts[i].deleting {
      PlaceIsUnique(accounts, i);
      PlaceIsUnique(accounts, place);
    }
  }

  lemma IdsDiffer(accounts: seq<Account>, k: nat)
    requires WellFormed(accounts) && k < |accounts|
    ensures forall i :: 0 <= i < |accounts| && i != k ==> accounts[i].id != accounts[k].id
  {
    forall i | 0 <= i < |accounts| && i != k ensures accounts[i].id != accounts[k].id {
      if i < k { assert Apart(accounts[i], accounts[k]); } else { assert Apart(accounts[k], accounts[i]); }
    }
  }

  lemma RemovedHoused(accounts: seq<Account>, id: Name, dirs: set<Name>)
    ensures Housed(accounts, dirs) ==> Housed(Removed(accounts, id), dirs)
  {
    var r := Removed(accounts, id);
    forall i | 0 <= i < |r| ensures r[i] in accounts {
      assert r[i] in r;
    }
  }

  function NewAccount(id: Name, alias: Name, platform: Platform): Account {
    Account(id, alias, platform, false, false, Status(Stopped, None, "", ""))
  }

  /** The durable deletion marker: inactive, stopped, earlier errors forgotten. */
  function Marked(a: Account): Account {
    if a.deleting then a else a.(deleting := true, active := false, status := a.status.(state := Stopped, reason := ""))
  }

  function Blamed(a: Account, reason: string): Account {
    a.(status := a.status.(reason := reason))
  }

  /** How a removal of a directory tree ended. */
  datatype Erasure = Gone | Partly | Untouched

  /** Well formed, and no name of this or another account. */
  predicate Candidate(accounts: seq<Account>, alias: Name, id: Name) {
    IsId(id) && id != alias && (forall a :: a in accounts ==> !Named(a, id))
  }

  predicate Usable(accounts: seq<Account>, occupied: set<Name>, alias: Name, id: Name) {
    Candidate(accounts, alias, id) && id !in occupied
  }

  /** The first candidate, from the k-th on, whose directory does not exist, unless a look-up fails before. */
  function Chosen(accounts: seq<Account>, occupied: set<Name>, faults: set<Name>, alias: Name, generated: seq<Name>, k: nat):
    Option<Name>
    decreases |generated| - k
  {
    if k >= |generated| || k >= 128 then None
    else if !Candidate(accounts, alias, generated[k]) then Chosen(accounts, occupied, faults, alias, generated, k + 1)
    else if generated[k] in faults then None
    else if generated[k] !in occupied then Some(generated[k])
    else Chosen(accounts, occupied, faults, alias, generated, k + 1)
  }

  /** Candidate number `k`, one of the first 128, can be used, and before it every candidate's directory
      was looked up and found taken. */
  ghost predicate Serves(accounts: seq<Account>, occupied: set<Name>, faults: set<Name>, alias: Name, generated: seq<Name>, k: int) {
    && 0 <= k < 128 && k < |generated| && Usable(accounts, occupied, alias, generated[k]) && generated[k] !in faults
    && forall j :: 0 <= j < k && Candidate(accounts, alias, generated[j]) ==> generated[j] !in faults && generated[j] in occupied
  }

  lemma {:induction false} ChosenExactly(accounts: seq<Account>, occupied: set<Name>, faults: set<Name>, alias: Name,
                                         generated: seq<Name>, from: nat)
    requires forall j :: 0 <= j < from && j < |generated| && Candidate(accounts, alias, generated[j]) ==>
               generated[j] !in faults && generated[j] in occupied
    ensures var r := Chosen(accounts, occupied, faults, alias, generated, from);
            && (r.Some? <==> exists k :: Serves(accounts, occupied, faults, alias, generated, k))
            && (r.Some? ==> exists k :: Serves(accounts, occupied, faults, alias, generated, k) && generated[k] == r.value)
    decreases |generated| - from
  {
    if from < |generated| && from < 128 {
      var id := generated[from];
      if Candidate(accounts, alias, id) && id !in faults && id !in occupied {
        assert Serves(accounts, occupied, faults, alias, generated, from);
      } else if !Candidate(accounts, alias, id) || id !in faults {
        ChosenExactly(accounts, occupied, faults, alias, generated, from + 1);
      }
    }
  }
}
