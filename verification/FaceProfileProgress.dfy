// What a user's request does and what it can always still come to: a revocation erases the provider, and an
// enrollment ends with the new person, and nobody else, at the provider.
module FaceProfileProgress {
  import opened Common
  import opened FaceProfile
  import opened FaceProfileSafety
  import opened FaceProfileSamples
  import opened FaceProfileTheorems

  lemma One(s: State, step: Step)
    ensures Runs(s, [step]) == Next(s, step)
  {
    assert [step][1..] == [];
  }

  ghost predicate OlderSamples(s: State, version: nat) {
    forall k :: 0 <= k < |s.samples| ==> s.samples[k].version < version
  }

  // ------------------------------------------------------------------ revoking

  // A revocation that names the current revision withdraws the consent at once, takes a version above that of
  // every sample and queues the job that erases; any other changes nothing.
  lemma RevocationRequest(before: seq<Step>, revision: nat)
    requires Runs(FRESH, before).profile.Some?
    ensures var s, t := Runs(FRESH, before), Runs(Runs(FRESH, before), [RequestRevoke(revision)]);
            var p := s.profile.value;
            if revision == 0 || revision != p.revision then t == s
            else
              && t.profile.Some? && t.profile.value.status == Revoking && !t.granted
              && t.profile.value.version > p.version && OlderSamples(t, t.profile.value.version)
              && t.profile.value.revision == p.revision + 1 && t.profile.value.person == p.person
              && t.samples == s.samples && t.provider == s.provider
              && (forall j :: 0 <= j < |s.jobs| ==> j < |t.jobs| && t.jobs[j] == s.jobs[j])
              && (exists j :: |s.jobs| <= j < |t.jobs| && t.jobs[j] == Revoke(t.profile.value.version, Queued))
  {
    var s := Runs(FRESH, before);
    Reachable(before);
    One(s, RequestRevoke(revision));
    if revision > 0 && revision == s.profile.value.revision {
      assert Next(s, RequestRevoke(revision)).jobs[|s.jobs|] == Revoke(s.profile.value.version + 1, Queued);
    }
  }

  lemma {:induction false} RevisionsCount(s: State, trace: seq<Step>)
    requires s.profile.Some? ==> s.profile.value.revision > 0
    ensures Runs(s, trace).profile.Some? ==> Runs(s, trace).profile.value.revision > 0
    decreases |trace|
  {
    if trace != [] {
      RevisionCounts(s, trace[0]);
      RevisionsCount(Next(s, trace[0]), trace[1..]);
    }
  }

  lemma RevisionCounts(s: State, step: Step)
    requires s.profile.Some? ==> s.profile.value.revision > 0
    ensures Next(s, step).profile.Some? ==> Next(s, step).profile.value.revision > 0
  {
  }

  // Whoever asks can be forgotten: from every reachable state with a profile, some run that starts with the user's
  // request ends revoked, with the consent withdrawn and nobody at the provider.
  lemma RevocationRequestEnds(before: seq<Step>) returns (rest: seq<Step>)
    requires Runs(FRESH, before).profile.Some?
    ensures var s := Runs(FRESH, before);
            var t := Runs(s, [RequestRevoke(s.profile.value.revision)] + rest);
            && InStatus(t, Revoked) && t.provider == {} && t.profile.value.person == None && !t.granted
            && forall k: nat :: k < |t.samples| ==> t.samples[k].status in {Deleted, Rejected}
  {
    var s := Runs(FRESH, before);
    var ask := RequestRevoke(s.profile.value.revision);
    RevisionsCount(FRESH, before);
    RevocationRequest(before, s.profile.value.revision);
    Append(FRESH, before, [ask]);
    rest := RevocationCanFinish(before + [ask]);
    Append(s, [ask], rest);
    Append(FRESH, before + [ask], rest);
    Reachable(before + [ask] + rest);
    SamplesAgree(before + [ask] + rest);
  }

  lemma {:induction false} Append(s: State, first: seq<Step>, second: seq<Step>)
    ensures Runs(s, first + second) == Runs(Runs(s, first), second)
    decreases |first|
  {
    if first == [] {
      assert first + second == second;
    } else {
      assert (first + second)[1..] == first[1..] + second;
      Append(Next(s, first[0]), first[1..], second);
    }
  }

  // ------------------------------------------------------------------ enrolling

  // Who may enroll: a first time without a profile or after a revocation or failure, and as a replacement with the
  // current revision, unless a revocation is under way.
  predicate Enrollable(s: State, replace: bool, revision: nat) {
    if replace then s.profile.Some? && s.profile.value.status != Revoking && 0 < revision == s.profile.value.revision
    else s.profile.None? || s.profile.value.status in {Revoked, Failed}
  }

  // An accepted enrollment adds one sample under a version above every other, records the consent and queues its
  // job; an active profile stays active with its person meanwhile. A refused one changes nothing.
  lemma EnrollmentRequest(before: seq<Step>, replace: bool, revision: nat)
    ensures var s, t := Runs(FRESH, before), Runs(Runs(FRESH, before), [RequestEnroll(replace, revision)]);
            if !Enrollable(s, replace, revision) then t == s
            else
              && t.profile.Some? && t.granted && OlderSamples(s, t.profile.value.version)
              && t.profile.value.status == (if InStatus(s, Active) then Active else Pending)
              && t.profile.value.revision == (if s.profile.Some? then s.profile.value.revision + 1 else 1)
              && (s.profile.Some? ==> t.profile.value.version > s.profile.value.version
                                      && t.profile.value.person == s.profile.value.person)
              && |t.samples| == |s.samples| + 1 && t.samples[..|s.samples|] == s.samples
              && t.samples[|s.samples|].version == t.profile.value.version
              && t.jobs == s.jobs + [Enroll(t.profile.value.version, |s.samples|, Queued)] && t.provider == s.provider
  {
    Reachable(before);
    One(Runs(FRESH, before), RequestEnroll(replace, revision));
  }

  // The job of the current enrollment, which is person q's, holds the lock.
  ghost predicate Enrolling(s: State, q: nat) {
    && Inv(s) && s.profile.Some? && !Withdrawn(s.profile.value) && s.run.Running?
    && s.jobs[s.run.job] == Enroll(s.profile.value.version, q, Queued)
  }

  // Person q is the one in use and at the provider, and every other sample is marked deleted.
  ghost predicate Enrolled(s: State, q: nat) {
    && InStatus(s, Active) && s.profile.value.person == Some(q) && s.provider == {q} && s.granted
    && forall k: nat :: k < |s.samples| && k != q ==> s.samples[k].status == Deleted
  }

  lemma Ahead1(s: State, q: nat, rest: seq<Step>) returns (trace: seq<Step>)
    requires Enrolled(Runs(DoAdvance(s), rest), q)
    ensures Enrolled(Runs(s, trace), q)
  {
    trace := [Advance] + rest;
    Ahead(s, Advance, rest);
  }

  lemma Marking(s: State, q: nat)
    requires Enrolling(s, q) && s.run.pc == MarkOld && s.profile.value.person == Some(q)
    ensures Enrolled(DoAdvance(s), q)
  {
    assert JobInv(s, s.profile.value, s.jobs[s.run.job]);
    OwnVersionIsLast(s.samples, s.profile.value.version, q);
    forall k | k in s.provider ensures k == q { assert k < |s.samples|; }
    assert s.profile.value.status == Active;
  }

  lemma OwnVersionIsLast(samples: seq<Sample>, version: nat, q: nat)
    requires forall k, l :: 0 <= k < l < |samples| ==> samples[k].version < samples[l].version
    requires forall k :: 0 <= k < |samples| ==> samples[k].version <= version
    requires q < |samples| && samples[q].version == version
    ensures forall k: nat :: k < |samples| && k != q ==> samples[k].version < version
  {
  }

  lemma CleanEnd(s: State, q: nat) returns (trace: seq<Step>)
    requires Enrolling(s, q) && s.run.pc == MarkOld && s.profile.value.person == Some(q)
    ensures Enrolled(Runs(s, trace), q)
  {
    Marking(s, q);
    One(s, Advance);
    trace := [Advance];
  }

  lemma CleanRest(s: State, q: nat, n: nat) returns (trace: seq<Step>)
    requires Enrolling(s, q) && s.run.pc.DeleteOld? && n == |s.run.pc.todo| && s.profile.value.person == Some(q)
    ensures Enrolled(Runs(s, trace), q)
    decreases n
  {
    StepKeeps(s, Advance);
    if n == 0 { trace := CleanEnd(DoAdvance(s), q); } else { trace := CleanRest(DoAdvance(s), q, n - 1); }
    trace := Ahead1(s, q, trace);
  }

  lemma EnrollRest(s: State, q: nat) returns (trace: seq<Step>)
    requires Enrolling(s, q) && s.run.pc in {Begin, CallProvider, Activate, SelectOld}
    requires s.run.pc == SelectOld ==> s.profile.value.person == Some(q)
    ensures Enrolled(Runs(s, trace), q)
    decreases if s.run.pc == Begin then 3 else if s.run.pc == CallProvider then 2
              else if s.run.pc == Activate then 1 else 0
  {
    StepKeeps(s, Advance);
    var t := DoAdvance(s);
    if s.run.pc == SelectOld {
      trace := CleanRest(t, q, |t.run.pc.todo|);
    } else {
      trace := EnrollRest(t, q);
    }
    trace := Ahead1(s, q, trace);
  }

  lemma EnrollFrom(s: State, j: nat, q: nat) returns (trace: seq<Step>)
    requires Inv(s) && s.profile.Some? && !Withdrawn(s.profile.value)
    requires j < |s.jobs| && s.jobs[j] == Enroll(s.profile.value.version, q, Queued)
    ensures Enrolled(Runs(s, trace), q)
  {
    var idle := Next(s, Crash);
    StepKeeps(s, Crash);
    StepKeeps(idle, Start(j));
    var rest := EnrollRest(Next(idle, Start(j)), q);
    Ahead(idle, Start(j), rest);
    Ahead(s, Crash, [Start(j)] + rest);
    trace := [Crash] + ([Start(j)] + rest);
  }

  // Whoever may enroll can be enrolled: some run that starts with the request ends active with the new person, and
  // everybody who was at the provider before is gone.
  lemma EnrollmentRequestEnds(before: seq<Step>, replace: bool, revision: nat) returns (rest: seq<Step>)
    requires Enrollable(Runs(FRESH, before), replace, revision)
    ensures var s := Runs(FRESH, before);
            Enrolled(Runs(s, [RequestEnroll(replace, revision)] + rest), |s.samples|)
  {
    var s, ask := Runs(FRESH, before), RequestEnroll(replace, revision);
    EnrollmentRequest(before, replace, revision);
    Append(FRESH, before, [ask]);
    Reachable(before + [ask]);
    rest := EnrollFrom(Runs(s, [ask]), |s.jobs|, |s.samples|);
    Append(s, [ask], rest);
  }

  // ------------------------------------------------------------------ giving up and trying again

  // An enrollment that is given up leaves a pending profile failed, the person in use and the consent as they
  // were, and its job open to a retry; it queues its cleanup unless there is a row for that already.
  lemma GivingUp(before: seq<Step>)
    requires var s := Runs(FRESH, before);
             && s.run.Running? && s.run.job < |s.jobs| && s.jobs[s.run.job].Enroll?
             && s.run.pc != Returned && s.profile.Some?
    ensures var s, t := Runs(FRESH, before), Runs(Runs(FRESH, before), [Fail(true)]);
            var p, job := s.profile.value, s.jobs[s.run.job];
            && t.profile.Some? && t.profile.value == p.(status := t.profile.value.status)
            && t.profile.value.status == (if p.status == Pending && p.version == job.version then Failed else p.status)
            && t.granted == s.granted && t.provider == s.provider && t.samples == s.samples && t.run == Idle
            && t.jobs == s.jobs[s.run.job := Enroll(job.version, job.person, GaveUp)]
                         + (if exists j :: 0 <= j < |s.jobs| && s.jobs[j].Cleanup? && s.jobs[j].version == job.version
                            then [] else [Cleanup(job.version, job.person, Queued)])
  {
    var s := Runs(FRESH, before);
    One(s, Fail(true));
    SameCleanups(s.jobs, s.run.job, s.jobs[s.run.job].version);
  }

  // Giving up an enrollment does not touch the cleanup rows.
  lemma SameCleanups(jobs: seq<Job>, j: nat, version: nat)
    requires j < |jobs| && jobs[j].Enroll?
    ensures HasCleanup(jobs[j := WithStatus(jobs[j], GaveUp)], version) <==> HasCleanup(jobs, version)
  {
    var after := jobs[j := WithStatus(jobs[j], GaveUp)];
    forall k | 0 <= k < |jobs| ensures after[k].Cleanup? <==> jobs[k].Cleanup? { }
  }

  // A queued cleanup of a person who is not in use can be carried out: the person is gone, the sample rejected and
  // the job done, and nothing else has changed.
  lemma CleanupCanFinish(before: seq<Step>, j: nat) returns (rest: seq<Step>)
    requires var s := Runs(FRESH, before);
             && s.profile.Some? && j < |s.jobs| && s.jobs[j].Cleanup? && s.jobs[j].status == Queued
             && s.profile.value.person != Some(s.jobs[j].person)
    ensures var s, t := Runs(FRESH, before), Runs(Runs(FRESH, before), rest);
            var v, q := s.jobs[j].version, s.jobs[j].person;
            && q < |s.samples| && t.profile == s.profile && t.granted == s.granted
            && t.provider == s.provider - {q} && t.samples == s.samples[q := Sample(v, Rejected)]
            && t.jobs == s.jobs[j := Cleanup(v, q, Succeeded)] && t.run == Idle
  {
    var s := Runs(FRESH, before);
    Reachable(before);
    assert JobInv(s, s.profile.value, s.jobs[j]);
    rest := [Crash, Start(j)] + [Advance, Advance] + [Advance, Advance];
    var begun := Next(Next(s, Crash), Start(j));
    Two(s, Crash, Start(j));
    Two(begun, Advance, Advance);
    Two(DoAdvance(DoAdvance(begun)), Advance, Advance);
    Append(s, [Crash, Start(j)], [Advance, Advance]);
    Append(s, [Crash, Start(j)] + [Advance, Advance], [Advance, Advance]);
    CleaningUp(begun, s.jobs[j].version, s.jobs[j].person);
  }

  lemma Two(s: State, a: Step, b: Step)
    ensures Runs(s, [a, b]) == Next(Next(s, a), b)
  {
    assert [a, b][1..] == [b];
    One(Next(s, a), b);
  }

  lemma CleaningUp(s: State, v: nat, q: nat)
    requires s.run.Running? && s.run.job < |s.jobs| && s.run.pc == Begin && s.jobs[s.run.job] == Cleanup(v, q, Queued)
    requires s.profile.Some? && s.profile.value.person != Some(q) && q < |s.samples| && s.samples[q].version == v
    ensures DoAdvance(DoAdvance(DoAdvance(DoAdvance(s))))
         == s.(provider := s.provider - {q}, samples := s.samples[q := Sample(v, Rejected)],
               jobs := s.jobs[s.run.job := Cleanup(v, q, Succeeded)], run := Idle)
  {
    var t := DoAdvance(DoAdvance(s));
    assert t == s.(provider := s.provider - {q}, run := Running(s.run.job, Reject));
    assert DoAdvance(t).samples == s.samples[q := Sample(v, Rejected)];
  }

  // A retry is accepted exactly for an enrollment that was given up, is still the current one and is not withdrawn,
  // and queues it again.
  lemma RetryIff(s: State, j: nat)
    ensures var t := Next(s, RequestRetry(j));
            if j < |s.jobs| && s.jobs[j].Enroll? && s.jobs[j].status == GaveUp && s.profile.Some?
               && s.jobs[j].version == s.profile.value.version && s.profile.value.status !in {Revoking, Revoked}
            then t == s.(jobs := s.jobs[j := Enroll(s.jobs[j].version, s.jobs[j].person, Queued)]) else t == s
  {
  }

  // The current enrollment, once given up, can be retried to its end.
  lemma RetryEnds(before: seq<Step>, j: nat) returns (rest: seq<Step>)
    requires var s := Runs(FRESH, before);
             && s.profile.Some? && !Withdrawn(s.profile.value) && j < |s.jobs|
             && s.jobs[j].Enroll? && s.jobs[j].status == GaveUp && s.jobs[j].version == s.profile.value.version
    ensures var s := Runs(FRESH, before);
            Enrolled(Runs(s, [RequestRetry(j)] + rest), s.jobs[j].person)
  {
    var s := Runs(FRESH, before);
    Reachable(before);
    One(s, RequestRetry(j));
    StepKeeps(s, RequestRetry(j));
    rest := EnrollFrom(Next(s, RequestRetry(j)), j, s.jobs[j].person);
    Append(s, [RequestRetry(j)], rest);
  }

  // ------------------------------------------------------------------ requests made on an older sight

  // A change of the profile counts, but for a pending enrollment that fails.
  ghost predicate LooksTheSame(p: Profile, q: Profile) {
    q == p || (p.status == Pending && q == p.(status := Failed))
  }

  ghost predicate Counted(s: State, t: State) {
    s.profile.Some? ==>
      && t.profile.Some?
      && (|| t.profile.value.revision > s.profile.value.revision
          || (t.profile.value.revision == s.profile.value.revision && LooksTheSame(s.profile.value, t.profile.value)))
  }

  lemma StepCounts(s: State, step: Step)
    ensures Counted(s, Next(s, step))
  {
  }

  lemma {:induction false} RunsCount(s: State, trace: seq<Step>)
    ensures Counted(s, Runs(s, trace))
    decreases |trace|
  {
    if trace != [] {
      StepCounts(s, trace[0]);
      RunsCount(Next(s, trace[0]), trace[1..]);
    }
  }

  // Whatever happens between the user's look and a replacement or revocation: if it changed the profile, other than
  // by failing, the request changes nothing.
  lemma StaleRequestIsRefused(s: State, after: seq<Step>, request: Step)
    requires s.profile.Some?
    requires var seen := s.profile.value.revision; request in {RequestRevoke(seen), RequestEnroll(true, seen)}
    requires Runs(s, after).profile.Some? ==> !LooksTheSame(s.profile.value, Runs(s, after).profile.value)
    ensures Next(Runs(s, after), request) == Runs(s, after)
  {
    RunsCount(s, after);
  }
}
