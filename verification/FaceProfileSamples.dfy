// What the sample rows say: the sample in use is that of the person in use, and a revoked profile has none left.
module FaceProfileSamples {
  import opened Common
  import opened FaceProfile
  import opened FaceProfileSafety
  import opened FaceProfileTheorems

  ghost predicate SamplesTell(samples: seq<Sample>, p: Profile) {
    && (forall k: nat :: k < |samples| && samples[k].status == InUse ==> p.person == Some(k))
    && (p.status == Active ==> p.person.Some? && p.person.value < |samples| && samples[p.person.value].status == InUse)
    && (p.status == Revoked ==> forall k: nat :: k < |samples| ==> Gone(samples[k]))
  }

  predicate Gone(x: Sample) {
    x.status == Deleted || x.status == Rejected
  }

  ghost predicate Telling(s: State) {
    s.profile.Some? ==> SamplesTell(s.samples, s.profile.value)
  }

  lemma StepTells(s: State, step: Step)
    requires Inv(s) && Telling(s)
    ensures Telling(Next(s, step))
  {
    if step.Advance? {
      if s.run.Running? && s.profile.Some? && s.run.pc != Returned { AdvanceTells(s); }
    } else {
      OtherStepsTell(s, step);
    }
  }

  lemma OtherStepsTell(s: State, step: Step)
    requires Inv(s) && Telling(s) && !step.Advance?
    ensures Telling(Next(s, step))
  {
  }

  lemma AdvanceTells(s: State)
    requires Inv(s) && Telling(s) && s.run.Running? && s.profile.Some? && s.run.pc != Returned
    ensures Telling(DoAdvance(s))
  {
    match s.jobs[s.run.job]
    case Enroll(v, q, _) => EnrollTells(s, v, q);
    case Revoke(v, _) =>
    case Cleanup(v, q, _) => CleanupTells(s, v, q);
  }

  // Activation puts the new sample in use and every other one up for deletion.
  lemma EnrollTells(s: State, v: nat, q: nat)
    requires Inv(s) && Telling(s) && s.run.Running? && s.profile.Some? && s.run.pc != Returned
    requires s.jobs[s.run.job].Enroll? && s.jobs[s.run.job].version == v && s.jobs[s.run.job].person == q
    ensures Telling(EnrollStep(s, v, q))
  {
    assert JobInv(s, s.profile.value, s.jobs[s.run.job]);
    forall k: nat | k < |s.samples| ensures s.samples[k].version == v <==> k == q { }
  }

  lemma CleanupTells(s: State, v: nat, q: nat)
    requires Inv(s) && Telling(s) && s.run.Running? && s.profile.Some? && s.run.pc != Returned
    requires s.jobs[s.run.job].Cleanup? && s.jobs[s.run.job].version == v && s.jobs[s.run.job].person == q
    ensures Telling(CleanupStep(s, v, q))
  {
  }

  lemma {:induction false} RunsTell(s: State, trace: seq<Step>)
    requires Inv(s) && Telling(s)
    ensures Telling(Runs(s, trace))
    decreases |trace|
  {
    if trace != [] {
      StepTells(s, trace[0]);
      StepKeeps(s, trace[0]);
      RunsTell(Next(s, trace[0]), trace[1..]);
    }
  }

  // In every reachable state only the person of the profile has a sample in use, and while the profile is active
  // that person has; every sample of a revoked profile is deleted or rejected.
  lemma SamplesAgree(trace: seq<Step>)
    requires Runs(FRESH, trace).profile.Some?
    ensures var s := Runs(FRESH, trace);
            && (forall k: nat :: k < |s.samples| && s.samples[k].status == InUse ==> s.profile.value.person == Some(k))
            && (s.profile.value.status == Active ==>
                  forall k: nat :: s.profile.value.person == Some(k) ==>
                    k < |s.samples| && s.samples[k].status == InUse)
            && (s.profile.value.status == Revoked ==>
                  forall k: nat :: k < |s.samples| ==> s.samples[k].status in {Deleted, Rejected})
  {
    RunsTell(FRESH, trace);
  }
}
