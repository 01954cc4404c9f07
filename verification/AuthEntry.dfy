/** The challenge entry as an object: its lock sections on its own fields, each proved against
    the step functions of the challenge machine; and the list of actions offered to the page. */
module AuthEntry {
  import opened Common
  import opened AuthChallenge

  /** The actions of a snapshot the page may show: advertised once, replay key valid and
      advertised once, no tombstone, and budget left. */
  predicate Offerable(b: Books, all: seq<Action>, a: Action) {
    && Count(all, a.id) == 1 && a.key.Some? && KeyCount(all, a.key.value) == 1
    && Untried(b, a.id, a.key.value) && Attempts(b.attempts, a.id) < MaxAttemptsPerAction
  }

  function Filtered(b: Books, all: seq<Action>, rest: seq<Action>): seq<Action> {
    if rest == [] then []
    else (if Offerable(b, all, rest[0]) then [rest[0]] else []) + Filtered(b, all, rest[1..])
  }

  /** `availableAuthActionsLocked` */
  function Available(v: View, b: Books, snapshot: Snapshot): seq<Action> {
    if b.inFlight || v.completedAt.Some? || snapshot.state != AuthRequired || b.total >= MaxAttemptsPerChallenge
    then [] else Filtered(b, snapshot.actions, snapshot.actions)
  }

  lemma {:induction false} FilteredHas(b: Books, all: seq<Action>, rest: seq<Action>, a: Action)
    ensures a in Filtered(b, all, rest) <==> a in rest && Offerable(b, all, a)
  {
    if rest != [] {
      FilteredHas(b, all, rest[1..], a);
      assert a in rest <==> a == rest[0] || a in rest[1..];
    }
  }

  lemma {:induction false} Absent(actions: seq<Action>, id: ActionId)
    requires Count(actions, id) == 0
    ensures forall a :: a in actions ==> a.id != id
  {
    if actions != [] { Absent(actions[1..], id); }
  }

  /** An action advertised once is the one the request thread finds. */
  lemma {:induction false} FoundOnce(actions: seq<Action>, a: Action)
    requires a in actions && Count(actions, a.id) == 1
    ensures Find(actions, a.id) == Some(a)
  {
    if actions[0].id == a.id {
      Absent(actions[1..], a.id);
    } else {
      assert a in actions[1..];
      FoundOnce(actions[1..], a);
    }
  }

  /** The screen asks for authentication and shows the action `id` with replay key `key` in one place, and
      neither of them anywhere else. */
  ghost predicate AdvertisedOnce(answer: Option<Snapshot>, id: ActionId, key: ReplayKey) {
    && answer.Some? && answer.value.state == AuthRequired
    && exists i :: Sole(answer.value.actions, i, id, key)
  }

  ghost predicate Sole(actions: seq<Action>, i: int, id: ActionId, key: ReplayKey) {
    && 0 <= i < |actions| && actions[i] == Action(id, Some(key))
    && forall j :: 0 <= j < |actions| && j != i ==> actions[j].id != id && actions[j].key != Some(key)
  }

  lemma {:induction false} CountedOnce(actions: seq<Action>, id: ActionId) returns (i: nat)
    requires Count(actions, id) == 1
    ensures i < |actions| && actions[i].id == id && Find(actions, id) == Some(actions[i])
    ensures forall j :: 0 <= j < |actions| && j != i ==> actions[j].id != id
  {
    if actions[0].id == id {
      Absent(actions[1..], id);
      i := 0;
      assert forall j :: 0 < j < |actions| ==> actions[j] in actions[1..];
    } else {
      i := CountedOnce(actions[1..], id);
      i := i + 1;
      assert forall j :: 0 < j < |actions| ==> actions[j] == actions[1..][j - 1];
    }
  }

  lemma {:induction false} KeyAbsent(actions: seq<Action>, key: ReplayKey)
    ensures KeyCount(actions, key) == 0 <==> forall j :: 0 <= j < |actions| ==> actions[j].key != Some(key)
  {
    if actions != [] {
      KeyAbsent(actions[1..], key);
      assert forall j :: 0 < j < |actions| ==> actions[j] == actions[1..][j - 1];
      assert forall j :: 0 <= j < |actions| - 1 ==> actions[1..][j] == actions[j + 1];
    }
  }

  lemma {:induction false} IdAbsent(actions: seq<Action>, id: ActionId)
    requires forall j :: 0 <= j < |actions| ==> actions[j].id != id
    ensures Count(actions, id) == 0
  {
    if actions != [] { IdAbsent(actions[1..], id); }
  }

  /** A replay key shown in place `i` is counted once exactly when no other place shows it. */
  lemma {:induction false} KeyCountedOnce(actions: seq<Action>, key: ReplayKey, i: nat)
    requires i < |actions| && actions[i].key == Some(key)
    ensures KeyCount(actions, key) >= 1
    ensures KeyCount(actions, key) == 1 <==> forall j :: 0 <= j < |actions| && j != i ==> actions[j].key != Some(key)
  {
    var rest := actions[1..];
    assert forall j :: 0 < j < |actions| ==> actions[j] == rest[j - 1];
    assert forall j :: 0 <= j < |rest| ==> rest[j] == actions[j + 1];
    if i == 0 {
      KeyAbsent(rest, key);
    } else {
      KeyCountedOnce(rest, key, i - 1);
    }
  }

  lemma {:induction false} SoleCounts(actions: seq<Action>, i: nat, id: ActionId)
    requires i < |actions| && actions[i].id == id && forall j :: 0 <= j < |actions| && j != i ==> actions[j].id != id
    ensures Count(actions, id) == 1 && Find(actions, id) == Some(actions[i])
  {
    if i == 0 { IdAbsent(actions[1..], id); } else { SoleCounts(actions[1..], i - 1, id); }
  }

  /** The request thread goes on with a replay key exactly when the screen advertises the action and that
      key in one place. */
  lemma ChosenExactly(answer: Option<Snapshot>, id: ActionId, key: ReplayKey)
    ensures Choose(answer, id) == Some(key) <==> AdvertisedOnce(answer, id, key)
  {
    if AdvertisedOnce(answer, id, key) {
      var i :| Sole(answer.value.actions, i, id, key);
      SoleCounts(answer.value.actions, i, id);
      KeyCountedOnce(answer.value.actions, key, i);
    }
    if Choose(answer, id) == Some(key) {
      var i := CountedOnce(answer.value.actions, id);
      KeyCountedOnce(answer.value.actions, key, i);
      assert Sole(answer.value.actions, i, id, key);
    }
  }

  /** The page offers exactly the actions that a confirmed request, seeing the same screen, would
      carry to the driver. */
  lemma OfferedIffPerformed(v: View, b: Books, snapshot: Snapshot, a: Action, now: Time)
    requires !Gone(v, now) && !b.inFlight && a in snapshot.actions
    ensures a in Available(v, b, snapshot) <==>
            (Choose(Some(snapshot), a.id) == a.key && a.key.Some? && MayCall(v, b, a.id, a.key.value, now))
  {
    FilteredHas(b, snapshot.actions, snapshot.actions, a);
    if Count(snapshot.actions, a.id) == 1 { FoundOnce(snapshot.actions, a); }
  }

  class Entry {
    var state: RuntimeState
    var completedAt: Option<Time>
    var expiresAt: Time
    var closed: bool
    var candidateSince: Time
    var observations: nat
    var actionAttempts: map<ActionId, nat>
    var totalActionAttempts: nat
    var actionInFlight: bool
    var performedActions: set<ActionId>
    var performedReplayKeys: set<ReplayKey>

    constructor (v: View, b: Books)
      ensures TheView() == v && TheBooks() == b
    {
      state, completedAt, expiresAt, closed := v.state, v.completedAt, v.expiresAt, v.closed;
      candidateSince, observations := v.candidateSince, v.observations;
      actionAttempts, totalActionAttempts, actionInFlight := b.attempts, b.total, b.inFlight;
      performedActions, performedReplayKeys := b.performedActions, b.performedKeys;
    }

    function TheView(): View
      reads this
    {
      View(state, completedAt, expiresAt, closed, candidateSince, observations)
    }

    function TheBooks(): Books
      reads this
    {
      Books(actionAttempts, totalActionAttempts, actionInFlight, performedActions, performedReplayKeys)
    }

    method MarkCompletedLocked(now: Time)
      modifies this`state, this`completedAt
      ensures TheView() == MarkCompleted(old(TheView()), now)
    {
      state := Online;
      if completedAt.None? {
        completedAt := Some(now);
      }
    }

    /** Returns whether this observation shows a stable ONLINE. */
    method ObserveAuthSnapshotLocked(snapshot: RuntimeState, now: Time) returns (stable: bool)
      modifies this`state, this`completedAt, this`candidateSince, this`observations
      ensures TheView() == Observe(old(TheView()), snapshot, now)
      ensures stable <==> snapshot == Online && observations >= 3 && now - candidateSince >= 15_000_000_000
      ensures stable ==> completedAt.Some? && state == Online
      ensures !stable ==> completedAt == old(completedAt) && state == (if snapshot == Online then Starting else snapshot)
    {
      if snapshot != Online {
        candidateSince := ZeroTime;
        observations := 0;
        state := snapshot;
        return false;
      }
      if candidateSince == ZeroTime {
        candidateSince := now;
        observations := 1;
      } else {
        observations := observations + 1;
      }
      if observations >= MinimumObservations && now - candidateSince >= StabilityWindow {
        MarkCompletedLocked(now);
        return true;
      }
      state := Starting;
      return false;
    }

    /** How often each action and each replay key is offered. */
    method CountActions(all: seq<Action>) returns (counts: map<ActionId, nat>, replayCounts: map<ReplayKey, nat>)
      ensures forall id :: Attempts(counts, id) == Count(all, id)
      ensures forall key :: Attempts(replayCounts, key) == KeyCount(all, key)
    {
      counts, replayCounts := map[], map[];
      var i := 0;
      while i < |all|
        invariant 0 <= i <= |all|
        invariant forall id :: Attempts(counts, id) + Count(all[i..], id) == Count(all, id)
        invariant forall key :: Attempts(replayCounts, key) + KeyCount(all[i..], key) == KeyCount(all, key)
      {
        assert all[i..][1..] == all[i + 1..];
        counts := counts[all[i].id := Attempts(counts, all[i].id) + 1];
        if all[i].key.Some? {
          replayCounts := replayCounts[all[i].key.value := Attempts(replayCounts, all[i].key.value) + 1];
        }
        i := i + 1;
      }
      assert all[|all|..] == [];
    }

    method AvailableAuthActionsLocked(snapshot: Snapshot) returns (result: seq<Action>)
      ensures result == Available(TheView(), TheBooks(), snapshot)
    {
      if actionInFlight || completedAt.Some? || snapshot.state != AuthRequired ||
         totalActionAttempts >= MaxAttemptsPerChallenge {
        return [];
      }
      var all := snapshot.actions;
      var counts, replayCounts := CountActions(all);
      result := [];
      var i := 0;
      while i < |all|
        invariant 0 <= i <= |all|
        invariant result + Filtered(TheBooks(), all, all[i..]) == Filtered(TheBooks(), all, all)
      {
        assert all[i..][1..] == all[i + 1..];
        var a := all[i];
        if Attempts(counts, a.id) == 1 && a.key.Some? && Attempts(replayCounts, a.key.value) == 1 &&
           a.id !in performedActions && a.key.value !in performedReplayKeys &&
           Attempts(actionAttempts, a.id) < MaxAttemptsPerAction {
          result := result + [a];
        }
        i := i + 1;
      }
    }

    /** First section of `performAuthAction`: take the single-flight flag. */
    method EnterAction(id: ActionId, confirmed: bool, now: Time) returns (entered: bool)
      modifies this`actionInFlight
      ensures entered == (!Gone(TheView(), now) && !old(actionInFlight) && id !in performedActions && confirmed)
      ensures TheBooks() == if entered then old(TheBooks()).(inFlight := true) else old(TheBooks())
    {
      entered := !(closed || now > expiresAt || completedAt.Some?) && !actionInFlight &&
                 id !in performedActions && confirmed;
      if entered {
        actionInFlight := true;
      }
    }

    /** Between the sections: the action must be advertised once, and so must its replay key. */
    method ChooseAdvertised(snapshot: Snapshot, id: ActionId) returns (key: Option<ReplayKey>)
      ensures key == Choose(Some(snapshot), id)
    {
      if snapshot.state != AuthRequired {
        return None;
      }
      var all := snapshot.actions;
      var advertised: Option<Action> := None;
      var matches, i := 0, 0;
      while i < |all|
        invariant 0 <= i <= |all|
        invariant matches + Count(all[i..], id) == Count(all, id)
        invariant matches <= 1 && (matches == 0 <==> advertised.None?)
        invariant Find(all, id) == if advertised.Some? then advertised else Find(all[i..], id)
      {
        assert all[i..][1..] == all[i + 1..];
        if all[i].id == id {
          if advertised.Some? {
            return None;
          }
          advertised := Some(all[i]);
          matches := 1;
        }
        i := i + 1;
      }
      if advertised.None? || advertised.value.key.None? {
        return None;
      }
      var replayMatches := 0;
      i := 0;
      while i < |all|
        invariant 0 <= i <= |all|
        invariant replayMatches + KeyCount(all[i..], advertised.value.key.value) == KeyCount(all, advertised.value.key.value)
      {
        assert all[i..][1..] == all[i + 1..];
        if all[i].key == advertised.value.key {
          replayMatches := replayMatches + 1;
        }
        i := i + 1;
      }
      return if replayMatches == 1 then advertised.value.key else None;
    }

    /** Second section: consume both tombstones and one attempt before the driver is entered. */
    method ReserveAction(id: ActionId, key: ReplayKey, now: Time) returns (reserved: bool)
      modifies this`actionAttempts, this`totalActionAttempts, this`performedActions, this`performedReplayKeys
      ensures reserved == MayCall(TheView(), old(TheBooks()), id, key, now)
      ensures TheBooks() == if reserved then ReserveCall(old(TheBooks()), id, key) else old(TheBooks())
    {
      if closed || now > expiresAt || completedAt.Some? || id in performedActions || key in performedReplayKeys {
        return false;
      }
      if Attempts(actionAttempts, id) >= MaxAttemptsPerAction || totalActionAttempts >= MaxAttemptsPerChallenge {
        return false;
      }
      actionAttempts := actionAttempts[id := Attempts(actionAttempts, id) + 1];
      totalActionAttempts := totalActionAttempts + 1;
      performedActions := performedActions + {id};
      performedReplayKeys := performedReplayKeys + {key};
      return true;
    }

    /** After a definitive rejection. */
    method ReleaseAction(id: ActionId, key: ReplayKey)
      modifies this`performedActions, this`performedReplayKeys
      ensures TheBooks() == ReleaseCall(old(TheBooks()), id, key)
    {
      performedActions := performedActions - {id};
      performedReplayKeys := performedReplayKeys - {key};
    }

    method LeaveAction()
      modifies this`actionInFlight
      ensures TheBooks() == old(TheBooks()).(inFlight := false)
    {
      actionInFlight := false;
    }

    /** What other threads' sections left in the entry. */
    method Adopt(v: View, b: Books)
      modifies this
      ensures TheView() == v && TheBooks() == b
    {
      state, completedAt, expiresAt, closed := v.state, v.completedAt, v.expiresAt, v.closed;
      candidateSince, observations := v.candidateSince, v.observations;
      actionAttempts, totalActionAttempts, actionInFlight := b.attempts, b.total, b.inFlight;
      performedActions, performedReplayKeys := b.performedActions, b.performedKeys;
    }
  }
}
