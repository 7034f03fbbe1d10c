// What the face profile protocol guarantees over every order of requests, runs and crashes.
module FaceProfileTheorems {
  import opened Common
  import opened FaceProfile
  import opened FaceProfileSafety

  lemma Reachable(trace: seq<Step>)
    ensures Inv(Runs(FRESH, trace))
  {
    RunsKeep(FRESH, trace);
  }

  ghost predicate InStatus(s: State, status: Status) {
    s.profile.Some? && s.profile.value.status == status
  }

  ghost predicate IsWithdrawn(s: State) {
    s.profile.Some? && Withdrawn(s.profile.value)
  }

  // A revoked profile has no person left at the provider.
  lemma RevokedIsErased(trace: seq<Step>)
    requires InStatus(Runs(FRESH, trace), Revoked)
    ensures Runs(FRESH, trace).provider == {} && Runs(FRESH, trace).profile.value.person == None
  {
    Reachable(trace);
  }

  // Whenever a profile is active, its person exists, and the last consent was granted.
  lemma ActiveIsPresent(trace: seq<Step>)
    requires InStatus(Runs(FRESH, trace), Active)
    ensures Runs(FRESH, trace).profile.value.person.Some?
    ensures Runs(FRESH, trace).profile.value.person.value in Runs(FRESH, trace).provider
    ensures Runs(FRESH, trace).granted
  {
    Reachable(trace);
  }

  // ------------------------------------------------------------------ revocation is final

  // The profile was withdrawn at version v, when it had n enrollments.
  ghost predicate Fenced(s: State, v: nat, n: nat) {
    && s.profile.Some? && n <= |s.samples|
    && s.profile.value.version >= v && (s.profile.value.version == v ==> Withdrawn(s.profile.value))
    && (forall k :: 0 <= k < n ==> s.samples[k].version < v)
    && (forall k :: n <= k < |s.samples| ==> s.samples[k].version > v)
    && (s.profile.value.status == Active ==> s.profile.value.person.Some? && s.profile.value.person.value >= n)
  }

  lemma WithdrawnFences(s: State)
    requires Inv(s) && IsWithdrawn(s)
    ensures Fenced(s, s.profile.value.version, |s.samples|)
  {
  }

  lemma FenceHolds(s: State, step: Step, v: nat, n: nat)
    requires Inv(s) && Fenced(s, v, n)
    ensures Fenced(Next(s, step), v, n)
  {
    match step
    case Advance => FenceAdvance(s, v, n);
    case RequestEnroll(replace, revision) => assert DoEnroll(s, replace, revision).samples[..|s.samples|] == s.samples;
    case _ =>
  }

  lemma FenceAdvance(s: State, v: nat, n: nat)
    requires Inv(s) && Fenced(s, v, n)
    ensures Fenced(DoAdvance(s), v, n)
  {
    if s.run.Running? {
      AdvanceKeepsVersions(s);
      if s.run.pc == Activate && s.jobs[s.run.job].Enroll? {
        assert s.samples[s.jobs[s.run.job].person].version == s.jobs[s.run.job].version;
      }
    }
  }

  ghost predicate SameVersions(s: State, t: State) {
    && s.profile.Some? && t.profile.Some? && t.profile.value.version == s.profile.value.version
    && |t.samples| == |s.samples| && forall k :: 0 <= k < |s.samples| ==> t.samples[k].version == s.samples[k].version
  }

  lemma AdvanceKeepsVersions(s: State)
    requires Inv(s) && s.profile.Some? && s.run.Running?
    ensures SameVersions(s, DoAdvance(s))
  {
    if s.run.pc != Returned {
      match s.jobs[s.run.job]
      case Enroll(v, q, _) => assert SameVersions(s, EnrollStep(s, v, q));
      case Revoke(v, _) => assert SameVersions(s, RevokeStep(s, v));
      case Cleanup(v, q, _) => assert SameVersions(s, CleanupStep(s, v, q));
    }
  }

  lemma {:induction false} FenceRuns(s: State, trace: seq<Step>, v: nat, n: nat)
    requires Inv(s) && Fenced(s, v, n)
    ensures Fenced(Runs(s, trace), v, n)
    decreases |trace|
  {
    if trace != [] {
      FenceHolds(s, trace[0], v, n);
      StepKeeps(s, trace[0]);
      FenceRuns(Next(s, trace[0]), trace[1..], v, n);
    }
  }

  // After a revocation request, only an enrollment requested later can make the profile
  // active: no rerun, retry or replacement that was already under way.
  lemma RevocationIsFinal(before: seq<Step>, after: seq<Step>)
    requires IsWithdrawn(Runs(FRESH, before)) && InStatus(Runs(Runs(FRESH, before), after), Active)
    ensures var t := Runs(Runs(FRESH, before), after);
            t.profile.value.person.Some? && t.profile.value.person.value >= |Runs(FRESH, before).samples|
            && t.profile.value.version > Runs(FRESH, before).profile.value.version && t.granted
  {
    Reachable(before);
    WithdrawnFences(Runs(FRESH, before));
    FenceRuns(Runs(FRESH, before), after, Runs(FRESH, before).profile.value.version, |Runs(FRESH, before).samples|);
    RunsKeep(Runs(FRESH, before), after);
  }

  // No run is about to create one of the first n persons.
  ghost predicate Erased(s: State, n: nat) {
    && (forall k :: k in s.provider ==> k >= n)
    && (s.run.Running? && s.run.pc in {CallProvider, Activate} && s.run.job < |s.jobs| && s.jobs[s.run.job].Enroll? ==>
          s.jobs[s.run.job].person >= n)
  }

  lemma ErasedHolds(s: State, step: Step, v: nat, n: nat)
    requires Inv(s) && Fenced(s, v, n) && Erased(s, n)
    ensures Erased(Next(s, step), n)
  {
    match step
    case Advance => ErasedAdvance(s, v, n);
    case ProviderFails(effect) =>
    case _ =>
  }

  lemma ErasedAdvance(s: State, v: nat, n: nat)
    requires Inv(s) && Fenced(s, v, n) && Erased(s, n)
    ensures Erased(DoAdvance(s), n)
  {
    if s.run.Running? && s.run.pc == Begin && s.jobs[s.run.job].Enroll? {
      assert JobInv(s, s.profile.value, s.jobs[s.run.job]);
    }
  }

  lemma {:induction false} ErasedRuns(s: State, trace: seq<Step>, v: nat, n: nat)
    requires Inv(s) && Fenced(s, v, n) && Erased(s, n)
    ensures Erased(Runs(s, trace), n)
    decreases |trace|
  {
    if trace != [] {
      ErasedHolds(s, trace[0], v, n);
      FenceHolds(s, trace[0], v, n);
      StepKeeps(s, trace[0]);
      ErasedRuns(Next(s, trace[0]), trace[1..], v, n);
    }
  }

  // Once a profile has been revoked, none of the persons it ever had comes back.
  lemma ErasedForever(before: seq<Step>, after: seq<Step>)
    requires InStatus(Runs(FRESH, before), Revoked)
    ensures forall k :: k in Runs(Runs(FRESH, before), after).provider ==> k >= |Runs(FRESH, before).samples|
  {
    var s := Runs(FRESH, before);
    Reachable(before);
    WithdrawnFences(s);
    ErasedRuns(s, after, s.profile.value.version, |s.samples|);
  }

  // ------------------------------------------------------------------ revocation can finish

  lemma Ahead(s: State, step: Step, rest: seq<Step>)
    ensures Runs(s, [step] + rest) == Runs(Next(s, step), rest)
  {
  }

  // The live revoke job holds the lock.
  ghost predicate Erasing(s: State) {
    Inv(s) && s.profile.Some? && s.profile.value.status == Revoking
    && s.run.Running? && s.jobs[s.run.job] == Revoke(s.profile.value.version, Queued)
  }

  lemma EraseStep(s: State, rest: seq<Step>) returns (trace: seq<Step>)
    requires InStatus(Runs(DoAdvance(s), rest), Revoked)
    ensures InStatus(Runs(s, trace), Revoked)
  {
    trace := [Advance] + rest;
    Ahead(s, Advance, rest);
  }

  lemma EraseRest(s: State, n: nat) returns (trace: seq<Step>)
    requires Erasing(s) && s.run.pc.DeleteAll? && n == |s.run.pc.todo|
    ensures InStatus(Runs(s, trace), Revoked)
    decreases n
  {
    StepKeeps(s, Advance);
    var t := DoAdvance(s);
    if n == 0 {
      assert Runs(DoAdvance(t), []) == DoAdvance(t);
      trace := EraseStep(t, []);
    } else {
      trace := EraseRest(t, n - 1);
    }
    trace := EraseStep(s, trace);
  }

  lemma EraseAll(s: State) returns (trace: seq<Step>)
    requires Erasing(s) && s.run.pc in {Begin, SelectAll}
    ensures InStatus(Runs(s, trace), Revoked)
    decreases if s.run.pc == Begin then 1 else 0
  {
    StepKeeps(s, Advance);
    var t := DoAdvance(s);
    if s.run.pc == Begin { trace := EraseAll(t); } else { trace := EraseRest(t, |t.run.pc.todo|); }
    trace := EraseStep(s, trace);
  }

  // From every reachable state that is being revoked, some run of the worker erases the
  // provider: the job it needs is always there.
  lemma RevocationCanFinish(before: seq<Step>) returns (after: seq<Step>)
    requires InStatus(Runs(FRESH, before), Revoking)
    ensures InStatus(Runs(Runs(FRESH, before), after), Revoked) && Runs(Runs(FRESH, before), after).provider == {}
  {
    var s := Runs(FRESH, before);
    Reachable(before);
    after := EraseFrom(s);
    RunsKeep(s, after);
  }

  lemma EraseFrom(s: State) returns (trace: seq<Step>)
    requires Inv(s) && InStatus(s, Revoking)
    ensures InStatus(Runs(s, trace), Revoked)
  {
    var j :| 0 <= j < |s.jobs| && s.jobs[j] == Revoke(s.profile.value.version, Queued);
    var idle := Next(s, Crash);
    StepKeeps(s, Crash);
    StepKeeps(idle, Start(j));
    var rest := EraseAll(Next(idle, Start(j)));
    Ahead(idle, Start(j), rest);
    Ahead(s, Crash, [Start(j)] + rest);
    trace := [Crash] + ([Start(j)] + rest);
  }

  // ------------------------------------------------------------------ nothing is left behind

  // Job j will delete person q, or put it to use.
  ghost predicate Owes(s: State, j: Job, q: nat)
    requires s.profile.Some? && q < |s.samples|
  {
    var p := s.profile.value;
    j.status == Queued &&
    match j
    case Enroll(v, r, _) => r == q || (p.person == Some(r) && s.samples[q].version < v)
    case Cleanup(v, r, _) => r == q || (p.person == Some(r) && s.samples[q].version < v)
    case Revoke(v, _) => p.status == Revoking && p.version == v
  }

  ghost predicate OwedBy(s: State, q: nat, j: nat) {
    s.profile.Some? && q < |s.samples| && j < |s.jobs| && Owes(s, s.jobs[j], q)
  }

  // Every person at the provider is in use or will be dealt with by a live job.
  ghost predicate Tracked(s: State) {
    forall q :: q in s.provider ==>
      s.profile.Some? && (s.profile.value.person == Some(q) || exists j :: OwedBy(s, q, j))
  }

  ghost predicate Quiescent(s: State) {
    s.run == Idle && forall j :: 0 <= j < |s.jobs| ==> s.jobs[j].status != Queued
  }

  lemma QuiescentIsClean(s: State)
    requires Inv(s) && Tracked(s) && Quiescent(s)
    ensures forall q :: q in s.provider ==>
              s.profile.Some?
                && s.profile.value == Profile(Active, s.profile.value.version, s.profile.value.revision, Some(q))
  {
    forall q | q in s.provider
      ensures s.profile.Some?
      ensures s.profile.value == Profile(Active, s.profile.value.version, s.profile.value.revision, Some(q))
    {
      forall j ensures !OwedBy(s, q, j) {}
    }
  }

  // What everybody owed is still owed, and nobody was added.
  lemma OwedCarries(s: State, t: State)
    requires Tracked(s) && s.profile.Some? && t.profile.Some? && t.profile.value.person == s.profile.value.person
    requires t.provider <= s.provider
    requires forall q, j :: q in t.provider && OwedBy(s, q, j) ==> OwedBy(t, q, j)
    ensures Tracked(t)
  {
  }

  // The version has a cleanup row, which holds the dedupe key, but it has been used up.
  ghost predicate CleanupSpent(s: State, version: nat) {
    && HasCleanup(s.jobs, version)
    && forall k :: 0 <= k < |s.jobs| && s.jobs[k].Cleanup? && s.jobs[k].version == version ==>
          s.jobs[k].status != Queued
  }

  // An enrollment is given up while its cleanup row is used up, and somebody was left to that enrollment alone.
  ghost predicate LosesTrack(s: State, step: Step) {
    && step == Fail(true) && s.profile.Some? && s.run.Running? && s.run.job < |s.jobs| && s.run.pc != Returned
    && s.jobs[s.run.job].Enroll? && CleanupSpent(s, s.jobs[s.run.job].version)
    && exists q :: q in s.provider && s.profile.value.person != Some(q) && OwedOnlyBy(s, q, s.run.job)
  }

  ghost predicate OwedOnlyBy(s: State, q: nat, j: nat) {
    forall k :: OwedBy(s, q, k) ==> k == j
  }

  lemma TrackedRequests(s: State, step: Step)
    requires Inv(s) && Tracked(s) && (step.RequestEnroll? || step.RequestRevoke? || step.RequestRetry?)
    ensures Tracked(Next(s, step))
  {
    var t := Next(s, step);
    if s.profile.Some? && t != s {
      if step.RequestRevoke? {
        forall q | q in t.provider ensures OwedBy(t, q, |s.jobs|) {}
      } else {
        forall q, j | q in t.provider && OwedBy(s, q, j) ensures OwedBy(t, q, j) {}
        OwedCarries(s, t);
      }
    }
  }

  lemma TrackedFinish(s: State)
    requires Inv(s) && Tracked(s) && s.run.Running? && s.run.pc == Returned
    ensures Tracked(DoAdvance(s))
  {
    var t := DoAdvance(s);
    forall q | q in t.provider && t.profile.value.person != Some(q) ensures exists j :: OwedBy(t, q, j) {
      var j :| OwedBy(s, q, j);
      assert OwedBy(t, q, j);
    }
  }

  lemma TrackedActivate(s: State)
    requires Inv(s) && Tracked(s) && s.run.Running? && s.run.pc == Activate && s.jobs[s.run.job].Enroll?
    ensures Tracked(DoAdvance(s))
  {
    var t, job := DoAdvance(s), s.jobs[s.run.job];
    if t.profile.value.person == Some(job.person) {
      forall q | q in t.provider && q != job.person ensures OwedBy(t, q, s.run.job) {}
    } else {
      forall q, j | q in t.provider && OwedBy(s, q, j) ensures OwedBy(t, q, j) {}
      OwedCarries(s, t);
    }
  }

  lemma TrackedCall(s: State, t: State)
    requires Inv(s) && Tracked(s) && s.run.Running? && s.run.pc == CallProvider && s.jobs[s.run.job].Enroll?
    requires t.profile == s.profile && t.jobs == s.jobs && t.samples == s.samples
    requires t.provider <= s.provider + {s.jobs[s.run.job].person}
    ensures Tracked(t)
  {
    var q := s.jobs[s.run.job].person;
    assert OwedBy(t, q, s.run.job);
    forall k | k in t.provider && k != q && t.profile.value.person != Some(k) ensures exists j :: OwedBy(t, k, j) {
      var j :| OwedBy(s, k, j);
      assert OwedBy(t, k, j);
    }
  }

  // No row is written but samples' statuses, and nobody joins the provider.
  ghost predicate OnlyDeletes(s: State, t: State) {
    && t.profile == s.profile && t.jobs == s.jobs && t.provider <= s.provider && |t.samples| == |s.samples|
    && forall k :: 0 <= k < |s.samples| ==> t.samples[k].version == s.samples[k].version
  }

  // A turn that neither ends the run nor creates, activates or erases anybody.
  ghost predicate Between(s: State) {
    s.profile.Some? && s.run.Running? && s.run.pc !in {Returned, Activate, CallProvider, Commit}
  }

  lemma TrackedElsewhere(s: State)
    requires Inv(s) && Tracked(s) && s.run.Running? && s.run.pc !in {Returned, Activate, CallProvider, Commit}
    ensures Tracked(DoAdvance(s))
  {
    var t := DoAdvance(s);
    if s.profile.Some? {
      AdvanceElsewhere(s);
      forall q, j | q in t.provider && OwedBy(s, q, j) ensures OwedBy(t, q, j) {}
      OwedCarries(s, t);
    }
  }

  lemma AdvanceElsewhere(s: State)
    requires Inv(s) && Between(s)
    ensures OnlyDeletes(s, DoAdvance(s))
  {
    match s.jobs[s.run.job]
    case Enroll(_, _, _) => EnrollElsewhere(s);
    case Revoke(_, _) => RevokeElsewhere(s);
    case Cleanup(_, _, _) => CleanupElsewhere(s);
  }

  lemma EnrollElsewhere(s: State)
    requires Inv(s) && Between(s)
    requires s.jobs[s.run.job].Enroll?
    ensures OnlyDeletes(s, DoAdvance(s))
  {
  }

  lemma RevokeElsewhere(s: State)
    requires Inv(s) && Between(s)
    requires s.jobs[s.run.job].Revoke?
    ensures OnlyDeletes(s, DoAdvance(s))
  {
  }

  lemma CleanupElsewhere(s: State)
    requires Inv(s) && Between(s)
    requires s.jobs[s.run.job].Cleanup?
    ensures OnlyDeletes(s, DoAdvance(s))
  {
  }

  lemma TrackedAdvance(s: State)
    requires Inv(s) && Tracked(s)
    ensures Tracked(DoAdvance(s))
  {
    if s.profile.Some? && s.run.Running? {
      if s.run.pc == Returned { TrackedFinish(s); }
      else if s.run.pc == Activate { TrackedActivate(s); }
      else if s.run.pc == CallProvider { TrackedCall(s, DoAdvance(s)); }
      else if s.run.pc == Commit { CommitErases(s); }
      else { TrackedElsewhere(s); }
    }
  }

  lemma CommitErases(s: State)
    requires Inv(s) && s.profile.Some? && s.run.Running? && s.run.pc == Commit
    ensures DoAdvance(s).provider == {}
  {
  }

  lemma TrackedProviderFails(s: State, effect: bool)
    requires Inv(s) && Tracked(s)
    ensures Tracked(DoProviderFails(s, effect))
  {
    var t := DoProviderFails(s, effect);
    if t != s && s.profile.Some? {
      if s.run.pc == CallProvider {
        TrackedCall(s, t);
      } else {
        forall q, j | q in t.provider && OwedBy(s, q, j) ensures OwedBy(t, q, j) {}
        OwedCarries(s, t);
      }
    }
  }

  ghost predicate GivesUp(s: State) {
    s.profile.Some? && s.run.Running? && s.run.pc != Returned && s.run.job < |s.jobs| && s.jobs[s.run.job].Enroll?
  }

  // Giving up an enrollment hands its debts to the cleanup job, unless that job is used up.
  lemma TrackedFailIff(s: State)
    requires Inv(s) && Tracked(s) && GivesUp(s)
    ensures Tracked(DoFail(s, true)) <==> !LosesTrack(s, Fail(true))
  {
    if CleanupSpent(s, s.jobs[s.run.job].version) {
      SpentFailIff(s);
    } else {
      HandsOver(s);
    }
  }

  // The other jobs owe what they owed.
  lemma OthersStillOwe(s: State)
    requires Inv(s) && GivesUp(s)
    ensures forall q: nat, j: nat :: q in s.provider && j < |s.jobs| && j != s.run.job ==>
              OwedBy(DoFail(s, true), q, j) == OwedBy(s, q, j)
  {
    FailShape(s);
  }

  lemma SpentFailIff(s: State)
    requires Inv(s) && Tracked(s) && GivesUp(s) && CleanupSpent(s, s.jobs[s.run.job].version)
    ensures Tracked(DoFail(s, true)) <==> !LosesTrack(s, Fail(true))
  {
    var t := DoFail(s, true);
    FailShape(s);
    OthersStillOwe(s);
    if LosesTrack(s, Fail(true)) {
      var q :| q in s.provider && s.profile.value.person != Some(q) && OwedOnlyBy(s, q, s.run.job);
      forall j ensures !OwedBy(t, q, j) {}
    } else {
      forall q | q in t.provider && t.profile.value.person != Some(q) ensures exists j :: OwedBy(t, q, j) {
        assert !OwedOnlyBy(s, q, s.run.job);
        var k :| OwedBy(s, q, k) && k != s.run.job;
        assert OwedBy(t, q, k);
      }
    }
  }

  lemma HandsOver(s: State)
    requires Inv(s) && Tracked(s) && GivesUp(s) && !CleanupSpent(s, s.jobs[s.run.job].version)
    ensures Tracked(DoFail(s, true))
  {
    var t, job := DoFail(s, true), s.jobs[s.run.job];
    assert JobInv(s, s.profile.value, job);
    FailShape(s);
    OthersStillOwe(s);
    forall q | q in t.provider && t.profile.value.person != Some(q) ensures exists j :: OwedBy(t, q, j) {
      var j :| OwedBy(s, q, j);
      if j != s.run.job {
        assert OwedBy(t, q, j);
      } else if HasCleanup(s.jobs, job.version) {
        var k :| 0 <= k < |s.jobs| && s.jobs[k].Cleanup? && s.jobs[k].version == job.version
          && s.jobs[k].status == Queued;
        CleanupOwesToo(s, q, k);
        assert OwedBy(t, q, k);
      } else {
        assert t.jobs[|s.jobs|] == Cleanup(job.version, job.person, Queued);
        assert OwedBy(t, q, |s.jobs|);
      }
    }
  }

  // The enrollment and its cleanup share version and person, so they owe the same.
  lemma CleanupOwesToo(s: State, q: nat, k: nat)
    requires Inv(s) && GivesUp(s) && OwedBy(s, q, s.run.job)
    requires k < |s.jobs| && s.jobs[k].Cleanup? && s.jobs[k].version == s.jobs[s.run.job].version
    requires s.jobs[k].status == Queued
    ensures OwedBy(s, q, k)
  {
    assert JobInv(s, s.profile.value, s.jobs[k]) && JobInv(s, s.profile.value, s.jobs[s.run.job]);
  }

  // What giving up an enrollment leaves of the tables.
  lemma FailShape(s: State)
    requires Inv(s) && GivesUp(s)
    ensures var t, job, over := DoFail(s, true), s.jobs[s.run.job],
              s.jobs[s.run.job := WithStatus(s.jobs[s.run.job], GaveUp)];
            && t.profile.Some? && t.profile.value.person == s.profile.value.person && t.provider == s.provider
            && t.samples == s.samples
            && t.profile.value.version == s.profile.value.version
            && (t.profile.value.status == Revoking <==> s.profile.value.status == Revoking)
            && t.jobs == if HasCleanup(s.jobs, job.version) then over
            else over + [Cleanup(job.version, job.person, Queued)]
  {
    var job, over := s.jobs[s.run.job], s.jobs[s.run.job := WithStatus(s.jobs[s.run.job], GaveUp)];
    if HasCleanup(s.jobs, job.version) {
      var k :| 0 <= k < |s.jobs| && s.jobs[k].Cleanup? && s.jobs[k].version == job.version;
      assert over[k].Cleanup? && over[k].version == job.version;
    }
  }

  lemma TrackedStepIff(s: State, step: Step)
    requires Inv(s) && Tracked(s)
    ensures Tracked(Next(s, step)) <==> !LosesTrack(s, step)
  {
    match step
    case RequestEnroll(_, _) => TrackedRequests(s, step);
    case RequestRevoke(_) => TrackedRequests(s, step);
    case RequestRetry(_) => TrackedRequests(s, step);
    case Advance => TrackedAdvance(s);
    case ProviderFails(effect) => TrackedProviderFails(s, effect);
    case Fail(terminal) =>
      if terminal && GivesUp(s) {
        TrackedFailIff(s);
      } else {
        SameDebts(s, step);
      }
    case Start(_) => SameDebts(s, step);
    case Crash => SameDebts(s, step);
  }

  lemma SameDebts(s: State, step: Step)
    requires Inv(s) && Tracked(s)
    requires Next(s, step) == s.(run := Next(s, step).run)
    ensures Tracked(Next(s, step))
  {
    var t := Next(s, step);
    if s.profile.Some? {
      forall q, j | q in t.provider && OwedBy(s, q, j) ensures OwedBy(t, q, j) {}
      OwedCarries(s, t);
    }
  }

  ghost predicate AlwaysTracked(s: State, trace: seq<Step>)
    decreases |trace|
  {
    Tracked(s) && (trace != [] ==> AlwaysTracked(Next(s, trace[0]), trace[1..]))
  }

  ghost predicate NeverLoses(s: State, trace: seq<Step>)
    decreases |trace|
  {
    trace != [] ==> !LosesTrack(s, trace[0]) && NeverLoses(Next(s, trace[0]), trace[1..])
  }

  // A run leaves no person behind exactly when it never gives up an enrollment whose cleanup
  // is used up and whom alone somebody was left to.
  lemma {:induction false} TrackedRunsIff(s: State, trace: seq<Step>)
    requires Inv(s) && Tracked(s)
    ensures AlwaysTracked(s, trace) <==> NeverLoses(s, trace)
    decreases |trace|
  {
    if trace != [] {
      TrackedStepIff(s, trace[0]);
      StepKeeps(s, trace[0]);
      if Tracked(Next(s, trace[0])) { TrackedRunsIff(Next(s, trace[0]), trace[1..]); }
    }
  }

  // Nobody presses retry: every enrollment is given up at most once.
  ghost predicate NoRetry(trace: seq<Step>) {
    forall k :: 0 <= k < |trace| ==> !trace[k].RequestRetry?
  }

  ghost predicate OneLife(s: State) {
    && (forall j :: 0 <= j < |s.jobs| && s.jobs[j].Enroll? && s.jobs[j].status == Queued ==>
          !HasCleanup(s.jobs, s.jobs[j].version))
    && (forall j, k :: 0 <= j < k < |s.jobs| && s.jobs[j].Enroll? && s.jobs[k].Enroll? ==>
          s.jobs[j].version != s.jobs[k].version)
  }

  lemma OneLifeHolds(s: State, step: Step)
    requires Inv(s) && OneLife(s) && !step.RequestRetry?
    ensures OneLife(Next(s, step)) && !LosesTrack(s, step)
  {
    match step
    case RequestEnroll(replace, revision) => OneLifeEnroll(s, replace, revision);
    case RequestRevoke(revision) => OneLifeRevoke(s, revision);
    case Fail(terminal) =>
      if terminal && GivesUp(s) {
        FailShape(s);
        OneLifeFail(s);
      } else {
        assert Next(s, step).jobs == s.jobs;
      }
    case Advance => OneLifeAdvance(s);
    case _ =>
  }

  lemma OneLifeEnroll(s: State, replace: bool, revision: nat)
    requires Inv(s) && OneLife(s)
    ensures OneLife(DoEnroll(s, replace, revision))
  {
  }

  lemma OneLifeRevoke(s: State, revision: nat)
    requires Inv(s) && OneLife(s)
    ensures OneLife(DoRevoke(s, revision))
  {
  }

  lemma OneLifeFail(s: State)
    requires Inv(s) && OneLife(s) && GivesUp(s)
    requires DoFail(s, true).jobs == s.jobs[s.run.job := WithStatus(s.jobs[s.run.job], GaveUp)]
                                     + [Cleanup(s.jobs[s.run.job].version, s.jobs[s.run.job].person, Queued)]
    ensures OneLife(DoFail(s, true))
  {
  }

  lemma OneLifeAdvance(s: State)
    requires Inv(s) && OneLife(s)
    ensures OneLife(DoAdvance(s))
  {
    var t := DoAdvance(s);
    if s.run.Running? && s.run.pc == Returned && s.profile.Some? {
      forall w | HasCleanup(t.jobs, w) ensures HasCleanup(s.jobs, w) {
        var k :| 0 <= k < |t.jobs| && t.jobs[k].Cleanup? && t.jobs[k].version == w;
        assert s.jobs[k].Cleanup? && s.jobs[k].version == w;
      }
    } else {
      assert t.jobs == s.jobs;
    }
  }

  // Without retries nobody is ever left behind, whatever fails, crashes or overlaps.
  lemma {:induction false} NoRetryIsTracked(s: State, trace: seq<Step>)
    requires Inv(s) && Tracked(s) && OneLife(s) && NoRetry(trace)
    ensures AlwaysTracked(s, trace)
    decreases |trace|
  {
    if trace != [] {
      OneLifeHolds(s, trace[0]);
      TrackedStepIff(s, trace[0]);
      StepKeeps(s, trace[0]);
      NoRetryIsTracked(Next(s, trace[0]), trace[1..]);
    }
  }
}
