/** How the registry's list of accounts, the runtime manager's view of it and the removal machine's
    slots fit together: each operation on the list is the operation that the machines perform. */
module RegistryViews {
  import R = AccountRegistry
  import M = RuntimeManager
  import Runs = RuntimeRuns
  import D = AccountRemoval

  /** The machines know an identifier by a number of its own. */
  ghost predicate Coded(accounts: seq<R.Account>, code: R.Name -> nat) {
    forall i, j :: 0 <= i < |accounts| && 0 <= j < |accounts| && code(accounts[i].id) == code(accounts[j].id) ==> i == j
  }

  function PlatformOf(p: R.Platform): M.Platform {
    if p == R.WeChat then M.WeChat else M.WeCom
  }

  function AccountOf(a: R.Account): M.Account {
    M.Account(PlatformOf(a.platform), a.active, a.deleting)
  }

  ghost function View(accounts: seq<R.Account>, code: R.Name -> nat): map<M.Id, M.Account>
    requires Coded(accounts, code)
  {
    map i | 0 <= i < |accounts| :: code(accounts[i].id) := AccountOf(accounts[i])
  }

  lemma SameIdsCoded(accounts: seq<R.Account>, r: seq<R.Account>, code: R.Name -> nat)
    requires Coded(accounts, code) && |r| == |accounts| && forall i :: 0 <= i < |r| ==> r[i].id == accounts[i].id
    ensures Coded(r, code)
  {
    forall i, j | 0 <= i < |r| && 0 <= j < |r| && code(r[i].id) == code(r[j].id) ensures i == j {
      assert code(accounts[i].id) == code(accounts[j].id);
    }
  }

  /** A map that has exactly the accounts of the list is its view. */
  lemma ViewIs(accounts: seq<R.Account>, code: R.Name -> nat, m: map<M.Id, M.Account>)
    requires Coded(accounts, code)
    requires forall i :: 0 <= i < |accounts| ==> code(accounts[i].id) in m && m[code(accounts[i].id)] == AccountOf(accounts[i])
    requires forall id :: id in m ==> exists i :: 0 <= i < |accounts| && code(accounts[i].id) == id
    ensures View(accounts, code) == m
  {
  }

  lemma ActivatedEntry(accounts: seq<R.Account>, code: R.Name -> nat, k: nat, i: nat)
    requires R.WellFormed(accounts) && Coded(accounts, code) && k < |accounts| && i < |accounts|
    ensures var v := View(accounts, code);
            && code(accounts[i].id) in v && code(accounts[k].id) in v
            && M.Activated(v, code(accounts[k].id))[code(accounts[i].id)] ==
               AccountOf(R.ActivatedOne(accounts[i], accounts[k].id, accounts[k].platform))
  {
    var v := View(accounts, code);
    assert v[code(accounts[i].id)] == AccountOf(accounts[i]) && v[code(accounts[k].id)] == AccountOf(accounts[k]);
    assert R.ValidAccount(accounts[i]) && R.ValidAccount(accounts[k]);
    assert i < k ==> R.Apart(accounts[i], accounts[k]);
    assert k < i ==> R.Apart(accounts[k], accounts[i]);
  }

  /** Activation in the list is activation in the manager's machine. */
  lemma ActivationAgrees(accounts: seq<R.Account>, code: R.Name -> nat, k: nat)
    requires R.WellFormed(accounts) && Coded(accounts, code) && k < |accounts|
    ensures var next, v, id := R.Activated(accounts, accounts[k].id, accounts[k].platform), View(accounts, code), code(accounts[k].id);
            Coded(next, code) && id in v && View(next, code) == M.Activated(v, id)
  {
    var next, v, id := R.Activated(accounts, accounts[k].id, accounts[k].platform), View(accounts, code), code(accounts[k].id);
    SameIdsCoded(accounts, next, code);
    forall i | 0 <= i < |next|
      ensures code(next[i].id) in v && id in v && M.Activated(v, id)[code(next[i].id)] == AccountOf(next[i])
    {
      ActivatedEntry(accounts, code, k, i);
    }
    assert forall i :: 0 <= i < |next| ==> next[i].id == accounts[i].id;
    ViewIs(next, code, M.Activated(v, id));
  }

  /** So is deactivation. */
  lemma DeactivationAgrees(accounts: seq<R.Account>, code: R.Name -> nat, k: nat)
    requires Coded(accounts, code) && k < |accounts|
    ensures var next := accounts[k := R.Halted(accounts[k])];
            Coded(next, code) && View(next, code) == M.Deactivated(View(accounts, code), code(accounts[k].id))
  {
    var next, v := accounts[k := R.Halted(accounts[k])], View(accounts, code);
    SameIdsCoded(accounts, next, code);
    assert v[code(accounts[k].id)] == AccountOf(accounts[k]);
    assert View(next, code).Keys == v.Keys;
  }

  /** Both registries mean the same by one active account per platform. */
  lemma OneActiveAgrees(accounts: seq<R.Account>, code: R.Name -> nat)
    requires R.WellFormed(accounts) && Coded(accounts, code)
    ensures R.OneActive(accounts) <==> Runs.OneActive(View(accounts, code))
  {
    var v := View(accounts, code);
    forall i | 0 <= i < |accounts|
      ensures code(accounts[i].id) in v && v[code(accounts[i].id)] == AccountOf(accounts[i]) && R.Supported(accounts[i].platform)
    {
      assert R.ValidAccount(accounts[i]);
    }
    if Runs.OneActive(v) {
      forall i, j | 0 <= i < j < |accounts| && accounts[i].active && accounts[j].active
        ensures accounts[i].platform != accounts[j].platform
      {
        assert code(accounts[i].id) != code(accounts[j].id);
      }
    }
  }

  /** The removal machine keeps of an account whether it is active and whether it is being deleted. */
  function Slots(m: map<M.Id, M.Account>): map<D.Id, D.Slot> {
    map id | id in m :: D.Slot(m[id].active, m[id].deleting)
  }

  function Rivals(m: map<M.Id, M.Account>, t: M.Id): set<M.Id>
    requires t in m
  {
    set id | id in m && m[id].platform == m[t].platform
  }

  /** Activation in the manager's machine is activation of the slots. */
  lemma SlotActivationAgrees(m: map<M.Id, M.Account>, t: M.Id)
    requires M.Registered(m, t)
    ensures Slots(M.Activated(m, t)) == D.Activated(Slots(m), t, Rivals(m, t))
  {
  }
}
