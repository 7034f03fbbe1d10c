// The one way a person is left behind at the provider: an enrollment that was given up and
// cleaned up is retried, creates its person again and fails again. Its cleanup row still holds
// the dedupe key, so no job is left that would delete the person.
module FaceProfileOrphan {
  import opened Common
  import opened FaceProfile
  import opened FaceProfileSafety
  import opened FaceProfileTheorems

  function At(status: Status, sample: SampleStatus, jobs: seq<Job>, provider: set<nat>, run: Run): State {
    State(Some(Profile(status, 1, 1, None)), true, [Sample(1, sample)], jobs, provider, run)
  }

  function Asked(enroll: JobStatus): seq<Job> {
    [Enroll(1, 0, enroll)]
  }

  function Cleaned(enroll: JobStatus, cleanup: JobStatus): seq<Job> {
    [Enroll(1, 0, enroll), Cleanup(1, 0, cleanup)]
  }

  const S0 := FRESH
  const S1 := At(Pending, Waiting, Asked(Queued), {}, Idle)
  const S2 := At(Pending, Waiting, Asked(Queued), {}, Running(0, Begin))
  const S3 := At(Pending, Waiting, Asked(Queued), {}, Running(0, CallProvider))
  const S4 := At(Pending, Waiting, Asked(Queued), {}, Running(0, Broken))
  const S5 := At(Failed, Waiting, Cleaned(GaveUp, Queued), {}, Idle)
  const S6 := At(Failed, Waiting, Cleaned(GaveUp, Queued), {}, Running(1, Begin))
  const S7 := At(Failed, Waiting, Cleaned(GaveUp, Queued), {}, Running(1, CleanOwn))
  const S8 := At(Failed, Waiting, Cleaned(GaveUp, Queued), {}, Running(1, Reject))
  const S9 := At(Failed, Rejected, Cleaned(GaveUp, Queued), {}, Running(1, Returned))
  const S10 := At(Failed, Rejected, Cleaned(GaveUp, Succeeded), {}, Idle)
  const S11 := At(Failed, Rejected, Cleaned(Queued, Succeeded), {}, Idle)
  const S12 := At(Failed, Rejected, Cleaned(Queued, Succeeded), {}, Running(0, Begin))
  const S13 := At(Failed, Rejected, Cleaned(Queued, Succeeded), {}, Running(0, CallProvider))
  const S14 := At(Failed, Rejected, Cleaned(Queued, Succeeded), {0}, Running(0, Broken))
  const S15 := At(Failed, Rejected, Cleaned(GaveUp, Succeeded), {0}, Idle)

  lemma Asks()
    ensures Next(S0, RequestEnroll(false, 0)) == S1
    ensures Next(S1, Start(0)) == S2
  {
  }

  lemma FailsOnce()
    ensures Next(S2, Advance) == S3
    ensures Next(S3, ProviderFails(false)) == S4
  {
  }

  lemma GivesUp()
    ensures Next(S4, Fail(true)) == S5
  {
  }

  lemma CleansUp()
    ensures Next(S5, Start(1)) == S6
    ensures Next(S6, Advance) == S7
  {
  }

  lemma Rejects()
    ensures Next(S7, Advance) == S8
    ensures Next(S8, Advance) == S9
  {
  }

  lemma Retries()
    ensures Next(S9, Advance) == S10
    ensures Next(S10, RequestRetry(0)) == S11
  {
  }

  lemma CallsAgain()
    ensures Next(S11, Start(0)) == S12
    ensures Next(S12, Advance) == S13
  {
  }

  lemma CreatesAndFails()
    ensures Next(S13, ProviderFails(true)) == S14
  {
  }

  lemma GivesUpAgain()
    ensures Next(S14, Fail(true)) == S15
  {
    assert S14.jobs[1] == Cleanup(1, 0, Succeeded);
    var over := S14.jobs[0 := WithStatus(S14.jobs[0], GaveUp)];
    assert over[1] == Cleanup(1, 0, Succeeded);
    assert HasCleanup(over, 1);
  }

  lemma {:induction false} RunsThrough(s: State, trace: seq<Step>, step: Step)
    ensures Runs(s, trace + [step]) == Next(Runs(s, trace), step)
    decreases |trace|
  {
    if trace == [] {
      assert trace + [step] == [step] && [step][1..] == [];
    } else {
      assert (trace + [step])[1..] == trace[1..] + [step];
      RunsThrough(Next(s, trace[0]), trace[1..], step);
    }
  }

  lemma Extend(trace: seq<Step>, from: State, step: Step, to: State) returns (longer: seq<Step>)
    requires Runs(FRESH, trace) == from && Next(from, step) == to
    ensures Runs(FRESH, longer) == to
  {
    longer := trace + [step];
    RunsThrough(FRESH, trace, step);
  }

  lemma RunToCleanup() returns (trace: seq<Step>)
    ensures Runs(FRESH, trace) == S7
  {
    trace := [];
    Asks();
    trace := Extend(trace, S0, RequestEnroll(false, 0), S1);
    trace := Extend(trace, S1, Start(0), S2);
    FailsOnce();
    trace := Extend(trace, S2, Advance, S3);
    trace := Extend(trace, S3, ProviderFails(false), S4);
    GivesUp();
    trace := Extend(trace, S4, Fail(true), S5);
    CleansUp();
    trace := Extend(trace, S5, Start(1), S6);
    trace := Extend(trace, S6, Advance, S7);
  }

  lemma RunToRetry() returns (trace: seq<Step>)
    ensures Runs(FRESH, trace) == S11
  {
    trace := RunToCleanup();
    Rejects();
    trace := Extend(trace, S7, Advance, S8);
    trace := Extend(trace, S8, Advance, S9);
    Retries();
    trace := Extend(trace, S9, Advance, S10);
    trace := Extend(trace, S10, RequestRetry(0), S11);
  }

  lemma RunToOrphan() returns (trace: seq<Step>)
    ensures Runs(FRESH, trace) == S15
  {
    trace := RunToRetry();
    CallsAgain();
    trace := Extend(trace, S11, Start(0), S12);
    trace := Extend(trace, S12, Advance, S13);
    CreatesAndFails();
    trace := Extend(trace, S13, ProviderFails(true), S14);
    GivesUpAgain();
    trace := Extend(trace, S14, Fail(true), S15);
  }

  // A run that ends with nothing left to do, the profile failed and a person at the provider.
  lemma RetryLeavesOrphan() returns (trace: seq<Step>)
    ensures Quiescent(Runs(FRESH, trace)) && InStatus(Runs(FRESH, trace), Failed)
    ensures Runs(FRESH, trace).provider == {0} && !Tracked(Runs(FRESH, trace))
  {
    trace := RunToOrphan();
    assert 0 in S15.provider;
    forall j ensures !OwedBy(S15, 0, j) {}
  }
}
