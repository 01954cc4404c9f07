/** The budget of verification codes: at most eight submissions, one at a time, and none after
    an accepted one. */
module AuthCodes {
  import opened Common
  import opened AuthChallenge
  import opened AuthSafety

  predicate Submitting(p: Phase) {
    p.CodeGated? || p.CodeCalling?
  }

  ghost predicate Unaccepted(codes: seq<bool>) {
    forall i :: 0 <= i < |codes| ==> !codes[i]
  }

  ghost predicate CodesInv(code: Codes, threads: map<Tid, Phase>, codes: seq<bool>) {
    && |codes| <= code.attempts && |codes| <= MaxCodeAttempts
    && (forall i :: 0 <= i < |codes| - 1 ==> !codes[i])
    && (forall t :: t in threads && Submitting(threads[t]) ==>
          && |codes| < code.attempts <= MaxCodeAttempts && !code.submitted
          && Unaccepted(codes))
    && (codes != [] && codes[|codes| - 1] ==>
          code.submitted || exists t :: t in threads && threads[t] == CodeLeaving(true))
  }

  lemma BeginCodes(s: State, tid: Tid, now: Time)
    requires ActionInv(s) && CodesInv(s.code, s.threads, s.codes)
    ensures var s' := Step(s, CodeBegin(tid, now)); CodesInv(s'.code, s'.threads, s'.codes)
  {
    if Enabled(s, CodeBegin(tid, now)) {
      assert forall t :: t in s.threads && IsCode(s.threads[t]) ==> s.code.inFlight;
      assert Unaccepted(s.codes);
    }
  }

  lemma EndCodes(s: State, e: Event)
    requires ActionInv(s) && CodesInv(s.code, s.threads, s.codes)
    requires e.CodeSnapshot? || e.CodeReturn? || e.CodeLeave?
    ensures var s' := Step(s, e); CodesInv(s'.code, s'.threads, s'.codes)
  {
    if Enabled(s, e) {
      var s' := Step(s, e);
      assert IsCode(s.threads[e.tid]);
      if e.CodeReturn? && e.accepted { assert s'.threads[e.tid] == CodeLeaving(true); }
      if e.CodeSnapshot? && s.codes != [] { assert !s.codes[|s.codes| - 1]; }
    }
  }

  /** The steps of a login action. */
  predicate Acts(e: Event) {
    e.ActBegin? || e.ActSnapshot? || e.ActReserve? || e.ActReturn? || e.ActRelease? || e.ActLeave?
  }

  /** Login actions leave the threads of the code section where they are. */
  lemma ActionsFrame(s: State, e: Event)
    requires Acts(e)
    ensures var s' := Step(s, e);
            && s'.code == s.code && s'.codes == s.codes
            && (forall t :: t in s.threads && IsCode(s.threads[t]) ==> t in s'.threads && s'.threads[t] == s.threads[t])
            && (forall t :: t in s'.threads && IsCode(s'.threads[t]) ==> t in s.threads && s'.threads[t] == s.threads[t])
  {
    match e
    case ActBegin(_, _, _, _) =>
    case ActSnapshot(_, _) =>
    case ActReserve(_, _) =>
    case ActReturn(_, _) =>
    case ActRelease(_) =>
    case ActLeave(_) =>
  }

  lemma OthersKeepCodes(s: State, e: Event)
    requires CodesInv(s.code, s.threads, s.codes) && (Acts(e) || Watches(e))
    ensures var s' := Step(s, e); CodesInv(s'.code, s'.threads, s'.codes)
  {
    if Watches(e) { WatchingFrame(s, e); } else { ActionsFrame(s, e); }
  }

  /** A code reaches the driver exactly when a request that passed the gate sees a screen that asks for
      authentication by a code. */
  lemma CodesNeedTheScreen(s: State, e: Event, t: Tid)
    requires !(t in s.threads && s.threads[t].CodeCalling?)
    ensures var s' := Step(s, e);
            (t in s'.threads && s'.threads[t].CodeCalling?) <==>
              (&& e.CodeSnapshot? && e.tid == t && t in s.threads && s.threads[t].CodeGated?
               && e.answer.Some? && e.answer.value.state == AuthRequired && e.answer.value.sms)
  {
    if Watches(e) { WatchingFrame(s, e); } else if Acts(e) { ActionsFrame(s, e); }
  }

  /** A request gets past the gate exactly when the challenge is open, no code is under way or accepted, and
      fewer than eight were tried. */
  lemma CodesAreAdmittedExactly(s: State, t: Tid, now: Time)
    requires t !in s.threads
    ensures var s' := Step(s, CodeBegin(t, now));
            t in s'.threads <==>
              (&& !s.view.closed && now <= s.view.expiresAt && s.view.completedAt.None?
               && !s.code.inFlight && !s.code.submitted && s.code.attempts < 8)
  {
  }

  lemma {:induction false} RunCodes(s: State, es: seq<Event>)
    requires ActionInv(s) && CodesInv(s.code, s.threads, s.codes)
    ensures CodesInv(Run(s, es).code, Run(s, es).threads, Run(s, es).codes)
    decreases |es|
  {
    if es != [] {
      var e := es[0];
      if e.CodeBegin? { BeginCodes(s, e.tid, e.now); }
      else if e.CodeSnapshot? || e.CodeReturn? || e.CodeLeave? { EndCodes(s, e); }
      else { OthersKeepCodes(s, e); }
      StepKeeps(s, e);
      RunCodes(Step(s, e), es[1..]);
    }
  }

  /** In every interleaving, at most eight codes are submitted, at most one submission is at the
      driver at a time, and an accepted code is the last one. */
  lemma CodesAreBounded(snapshot: Snapshot, now: Time, expiresAt: Time, es: seq<Event>)
    ensures var s := Run(Begin(snapshot, now, expiresAt), es);
            && |s.codes| <= 8
            && (forall i :: 0 <= i < |s.codes| - 1 ==> !s.codes[i])
            && (forall t, u :: t in s.threads && u in s.threads && s.threads[t].CodeCalling? && s.threads[u].CodeCalling?
                  ==> t == u)
            && (s.codes != [] && s.codes[|s.codes| - 1] ==>
                  forall t :: t in s.threads ==> !s.threads[t].CodeCalling?)
  {
    RunCodes(Begin(snapshot, now, expiresAt), es);
    RunKeeps(Begin(snapshot, now, expiresAt), es);
    var s := Run(Begin(snapshot, now, expiresAt), es);
    forall t, u | t in s.threads && u in s.threads && s.threads[t].CodeCalling? && s.threads[u].CodeCalling?
      ensures t == u
    {
      assert IsCode(s.threads[t]) && IsCode(s.threads[u]);
    }
    assert s.codes != [] && s.codes[|s.codes| - 1] ==> !Unaccepted(s.codes);
    assert forall t :: t in s.threads && s.threads[t].CodeCalling? ==> Submitting(s.threads[t]);
  }
}
