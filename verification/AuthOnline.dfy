/** What a challenge reports: ONLINE only after a stable run of observations, and for good;
    and the budget of verification codes. */
module AuthOnline {
  import opened Common
  import opened AuthChallenge
  import opened AuthSafety

  ghost predicate Streak(observed: seq<Observation>, i: int, j: int) {
    0 <= i <= j <= |observed| && forall m :: i <= m < j ==> observed[m].online
  }

  /** Nothing ONLINE was counted before position `i`: it follows the start, a non-ONLINE
      observation, or one taken at the zero time, which the source cannot tell from "none". */
  predicate Opens(observed: seq<Observation>, i: int) {
    0 <= i <= |observed| && (i == 0 || !observed[i - 1].online || observed[i - 1].now == ZeroTime)
  }

  /** Completion at `t` rests on positions `i` to `j`: at least three ONLINE observations in a
      row, the first and the completing one at least the stability window apart. */
  ghost predicate Proof(observed: seq<Observation>, i: int, j: int, t: Time) {
    && 0 <= i && j < |observed| && j - i + 1 >= 3
    && Streak(observed, i, j + 1) && Opens(observed, i)
    && observed[j].now == t && t - observed[i].now >= 15_000_000_000
  }

  ghost predicate Proven(observed: seq<Observation>, t: Time) {
    exists i, j :: Proof(observed, i, j, t)
  }

  /** The candidate is the current run of ONLINE observations. */
  ghost predicate CandidateInv(v: View, observed: seq<Observation>) {
    if v.candidateSince == ZeroTime then Opens(observed, |observed|)
    else
      && 1 <= v.observations <= |observed|
      && Streak(observed, |observed| - v.observations, |observed|)
      && Opens(observed, |observed| - v.observations)
      && observed[|observed| - v.observations].now == v.candidateSince
  }

  ghost predicate ViewInv(v: View, observed: seq<Observation>) {
    && (v.state == Online ==> v.completedAt.Some?)
    && CandidateInv(v, observed)
    && (v.completedAt.Some? ==> Proven(observed, v.completedAt.value))
  }

  /** Every report tells the truth about completion, and completion never moves. */
  ghost predicate ReportsInv(v: View, reports: seq<Report>) {
    forall i :: 0 <= i < |reports| ==>
      && (reports[i].state == Online <==> reports[i].completedAt.Some?)
      && (reports[i].completedAt.Some? ==> reports[i].completedAt == v.completedAt)
  }

  ghost predicate OnlineInv(s: State) {
    ViewInv(s.view, s.observed) && ReportsInv(s.view, s.reports)
  }

  lemma ProvenGrows(observed: seq<Observation>, o: Observation, t: Time)
    requires Proven(observed, t)
    ensures Proven(observed + [o], t)
  {
    var i, j :| Proof(observed, i, j, t);
    assert Proof(observed + [o], i, j, t);
  }

  /** One observation: the candidate is extended, dropped, or proven stable. */
  lemma ObserveKeeps(v: View, observed: seq<Observation>, snapshot: Snapshot, now: Time)
    requires ViewInv(v, observed)
    ensures ViewInv(Observe(v, snapshot.state, now), Seen(observed, snapshot, now))
    ensures v.completedAt.Some? ==> Observe(v, snapshot.state, now).completedAt == v.completedAt
    ensures v.completedAt.None? ==>
              (Observe(v, snapshot.state, now).state == Online <==> Observe(v, snapshot.state, now).completedAt.Some?)
  {
    var v', seen := Observe(v, snapshot.state, now), Seen(observed, snapshot, now);
    var o := Observation(snapshot.state == Online, now);
    assert seen[|observed|] == o;
    if v.completedAt.Some? { ProvenGrows(observed, o, v.completedAt.value); }
    if snapshot.state == Online {
      var first := |seen| - v'.observations;
      assert v.candidateSince != ZeroTime ==> first == |observed| - v.observations;
      assert seen[first].now == v'.candidateSince;
      assert Streak(seen, first, |seen|);
      assert Opens(seen, first);
      if v.completedAt.None? && v'.completedAt.Some? {
        assert Proof(seen, first, |observed|, now);
      }
    }
  }

  /** An observation completes the challenge exactly when a stable run of ONLINE observations ends with
      it, as long as no clock reading is the zero time. */
  lemma CompletedExactly(v: View, observed: seq<Observation>, snapshot: Snapshot, now: Time)
    requires ViewInv(v, observed) && v.completedAt.None?
    requires now != ZeroTime && forall i :: 0 <= i < |observed| ==> observed[i].now != ZeroTime
    ensures Observe(v, snapshot.state, now).completedAt.Some? <==>
            exists i :: Proof(Seen(observed, snapshot, now), i, |observed|, now)
  {
    var v', seen := Observe(v, snapshot.state, now), Seen(observed, snapshot, now);
    ObserveKeeps(v, observed, snapshot, now);
    if v'.completedAt.Some? {
      assert Proof(seen, |seen| - v'.observations, |observed|, now);
    }
    if i :| Proof(seen, i, |observed|, now) {
      // Both begin after the last observation that was not ONLINE.
      assert seen[|observed|].online;
      var first := |seen| - v'.observations;
      assert Streak(seen, first, |seen|) && Opens(seen, first);
      assert i == first;
    }
  }

  lemma WatchOnline(s: State, e: Event)
    requires OnlineInv(s) && (e.MonitorObserve? || e.StateObserve? || e.ImageObserve?)
    ensures OnlineInv(Step(s, e))
  {
    ObserveKeeps(s.view, s.observed, e.snapshot, e.now);
  }

  lemma StepOnline(s: State, e: Event)
    requires OnlineInv(s)
    ensures OnlineInv(Step(s, e))
  {
    if e.MonitorObserve? || e.StateObserve? || e.ImageObserve? {
      WatchOnline(s, e);
    } else if !Watches(e) {
      ActionsDoNotShow(s, e);
    }
  }

  /** The monitor shows a completed challenge as ONLINE, an expired one as OFFLINE, and leaves any other alone. */
  lemma ExpiryShows(s: State, now: Time)
    requires !s.view.closed
    ensures var v := Step(s, MonitorTick(now)).view;
            if s.view.completedAt.Some? then v == s.view.(state := Online)
            else if s.view.expiresAt < now then v == s.view.(state := Offline)
            else v == s.view
  {
  }

  /** Whoever is answered is told the state of the entry after the request. */
  lemma AnswersAreCurrent(s: State, e: Event)
    requires Enabled(s, e) && (e.StateObserve? || e.Read?)
    ensures var s' := Step(s, e);
            s'.reports == s.reports + [AuthChallenge.Report(s'.view.state, s'.view.completedAt)]
  {
  }

  lemma ActionsDoNotShow(s: State, e: Event)
    requires !Watches(e)
    ensures Step(s, e).view == s.view && Step(s, e).observed == s.observed && Step(s, e).reports == s.reports
  {
  }

  lemma {:induction false} RunOnline(s: State, es: seq<Event>)
    requires OnlineInv(s)
    ensures OnlineInv(Run(s, es))
    ensures s.view.completedAt.Some? ==> Run(s, es).view.completedAt == s.view.completedAt
    ensures |s.reports| <= |Run(s, es).reports| && Run(s, es).reports[..|s.reports|] == s.reports
    ensures s.view.completedAt.Some? ==>
              forall i :: |s.reports| <= i < |Run(s, es).reports| ==> Run(s, es).reports[i].state == Online
    decreases |es|
  {
    if es != [] {
      StepOnline(s, es[0]);
      CompletionStays(s, es[0]);
      RunOnline(Step(s, es[0]), es[1..]);
    }
  }

  /** Once completed, always completed at the same time, and every answer says ONLINE, even when
      the image handler has overwritten the stored state in between. */
  lemma CompletionStays(s: State, e: Event)
    ensures s.view.completedAt.Some? ==> Step(s, e).view.completedAt == s.view.completedAt
    ensures var reports := Step(s, e).reports;
            reports == s.reports ||
            (&& |reports| == |s.reports| + 1 && reports[..|s.reports|] == s.reports
             && (s.view.completedAt.Some? ==> reports[|s.reports|].state == Online))
  {
    if !Watches(e) { ActionsDoNotShow(s, e); }
  }

  /** Over every run of a challenge: a reported ONLINE carries a completion time, that time is
      proven by a stable run of observations, and every later report says ONLINE with it. */
  lemma OnlineIsStable(snapshot: Snapshot, now: Time, expiresAt: Time, es: seq<Event>, i: nat, j: nat)
    requires i <= j < |Run(Begin(snapshot, now, expiresAt), es).reports|
    requires Run(Begin(snapshot, now, expiresAt), es).reports[i].state == Online
    ensures var s := Run(Begin(snapshot, now, expiresAt), es);
            && s.view.completedAt.Some? && s.reports[i].completedAt == s.view.completedAt
            && Proven(s.observed, s.view.completedAt.value)
            && s.reports[j].state == Online && s.reports[j].completedAt == s.view.completedAt
  {
    BeginOnline(snapshot, now, expiresAt);
    RunOnline(Begin(snapshot, now, expiresAt), es);
    LaterReports(Begin(snapshot, now, expiresAt), es, i, j);
  }

  lemma BeginOnline(snapshot: Snapshot, now: Time, expiresAt: Time)
    ensures OnlineInv(Begin(snapshot, now, expiresAt))
  {
    var v := View(if snapshot.state == Online then Starting else snapshot.state, None, expiresAt, false, ZeroTime, 0);
    ObserveKeeps(v, [], snapshot, now);
  }

  /** Reports never go back from ONLINE. */
  lemma {:induction false} LaterReports(s: State, es: seq<Event>, i: nat, j: nat)
    requires OnlineInv(s) && i <= j < |Run(s, es).reports| && Run(s, es).reports[i].state == Online
    requires i >= |s.reports|
    ensures Run(s, es).reports[j].state == Online
    decreases |es|
  {
    if es != [] {
      var s' := Step(s, es[0]);
      StepOnline(s, es[0]);
      CompletionStays(s, es[0]);
      RunOnline(s', es[1..]);
      if i >= |s'.reports| {
        LaterReports(s', es[1..], i, j);
      } else {
        // Report i was given by this very step, so the challenge is completed from here on.
        assert Run(s', es[1..]).reports[i] == Run(s', es[1..]).reports[..|s'.reports|][i] == s'.reports[i];
        assert s'.view.completedAt.Some?;
      }
    }
  }
}
