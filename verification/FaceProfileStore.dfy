// The rows of one face profile as the service and its worker update them, and the loop that
// deletes replaced persons one call at a time.
module FaceProfileStore {
  import opened Common
  import opened FaceProfile

  class ProfileStore {
    var profile: Option<Profile>
    var granted: bool
    var samples: seq<Sample>
    var jobs: seq<Job>
    var provider: set<nat>
    var run: Run

    function Snapshot(): State
      reads this
    {
      State(profile, granted, samples, jobs, provider, run)
    }

    constructor ()
      ensures Snapshot() == FRESH
    {
      profile, granted, samples, jobs, provider, run := None, false, [], [], {}, Idle;
    }

    // Enroll, first time or replacing.
    method Enroll(replace: bool, revision: nat) returns (accepted: bool)
      modifies this
      ensures Snapshot() == DoEnroll(old(Snapshot()), replace, revision)
      ensures accepted <==> (old(profile).None? && !replace)
                            || (old(profile).Some? && MayEnroll(old(profile).value, replace, revision)
                                && !(replace && revision == 0))
      ensures !accepted ==> Snapshot() == old(Snapshot())
      ensures accepted ==>
                && profile.Some? && granted && provider == old(provider) && run == old(run)
                && profile.value.status
                   == (if old(profile).Some? && old(profile).value.status == Active then Active else Pending)
                && profile.value.version == (if old(profile).Some? then old(profile).value.version + 1 else 1)
                && samples == old(samples) + [Sample(profile.value.version, Waiting)]
                && jobs == old(jobs) + [Job.Enroll(profile.value.version, |old(samples)|, Queued)]
    {
      if replace && revision == 0 { return false; }
      if profile.None? {
        if replace { return false; }
        profile := Some(Profile(Pending, 1, 1, None));
      } else {
        var p := profile.value;
        if p.status == Revoking { return false; }
        if !replace && p.status != Revoked && p.status != Failed { return false; }
        if replace && p.revision != revision { return false; }
        p := p.(revision := p.revision + 1, version := p.version + 1);
        if p.status != Active {
          p := p.(status := Pending);
        }
        profile := Some(p);
      }
      var person := |samples|;
      samples := samples + [Sample(profile.value.version, Waiting)];
      granted := true;
      jobs := jobs + [Job.Enroll(profile.value.version, person, Queued)];
      accepted := true;
    }

    // Revoke: the version it bumps fences off every job queued so far.
    method Revoke(revision: nat) returns (accepted: bool)
      modifies this
      ensures Snapshot() == DoRevoke(old(Snapshot()), revision)
      ensures accepted <==> revision > 0 && old(profile).Some? && old(profile).value.revision == revision
      ensures !accepted ==> Snapshot() == old(Snapshot())
      ensures accepted ==>
                && profile.Some? && profile.value.status == Revoking && !granted
                && profile.value.version == old(profile).value.version + 1
                && profile.value.revision == old(profile).value.revision + 1
                && profile.value.person == old(profile).value.person
                && jobs == old(jobs) + [Job.Revoke(profile.value.version, Queued)]
                && samples == old(samples) && provider == old(provider) && run == old(run)
    {
      if profile.None? || revision == 0 || profile.value.revision != revision { return false; }
      var p := profile.value;
      profile := Some(p.(status := Revoking, revision := p.revision + 1, version := p.version + 1));
      granted := false;
      jobs := jobs + [Job.Revoke(profile.value.version, Queued)];
      accepted := true;
    }

    // finishEnrollmentCleanup, undisturbed: select, delete one by one, mark.
    method FinishEnrollmentCleanup(v: nat, q: nat)
      modifies this
      ensures Snapshot() == CleanedUp(old(Snapshot()), v, q)
    {
      var selected := OldPersons(samples, |samples|, q, v);
      var i := 0;
      while i < |selected|
        invariant 0 <= i <= |selected|
        invariant Snapshot() == old(Snapshot()).(provider := WithoutAll(old(provider), selected[..i]))
      {
        assert selected[..i + 1][..i] == selected[..i];
        provider := provider - {selected[i]};
        i := i + 1;
      }
      assert selected[..i] == selected;
      samples := Marked(samples, (k, x: Sample) => if k != q && x.version < v then Deleted else x.status);
    }
  }

  function WithoutAll(provider: set<nat>, persons: seq<nat>): (r: set<nat>)
    ensures forall k :: k in r <==> k in provider && k !in persons
  {
    if persons == [] then provider else WithoutAll(provider, persons[..|persons| - 1]) - {persons[|persons| - 1]}
  }

  // What a cleanup that is not interrupted leaves.
  function CleanedUp(s: State, v: nat, q: nat): State {
    s.(provider := WithoutAll(s.provider, OldPersons(s.samples, |s.samples|, q, v)),
       samples := Marked(s.samples, (k, x: Sample) => if k != q && x.version < v then Deleted else x.status))
  }

  function Advances(n: nat): seq<Step> {
    seq(n, _ => Advance)
  }

  // The worker's job is the same work taken a step at a time, so that it can stop anywhere.
  lemma CleanupTakesSteps(s: State, v: nat, q: nat)
    requires s.profile.Some? && s.run.Running? && s.run.pc == SelectOld && s.run.job < |s.jobs|
    requires !s.jobs[s.run.job].Revoke? && s.jobs[s.run.job].version == v && s.jobs[s.run.job].person == q
    ensures Runs(s, Advances(|OldPersons(s.samples, |s.samples|, q, v)| + 3)) == At(CleanedUp(s, v, q), Returned)
  {
    var todo := OldPersons(s.samples, |s.samples|, q, v);
    var selected := At(s, DeleteOld(todo));
    SelectStep(s, v, q);
    FirstAdvance(s, |todo| + 2);
    DeletesTakeSteps(selected, v, q, todo);
  }

  lemma SelectStep(s: State, v: nat, q: nat)
    requires s.profile.Some? && s.run.Running? && s.run.pc == SelectOld && s.run.job < |s.jobs|
    requires !s.jobs[s.run.job].Revoke? && s.jobs[s.run.job].version == v && s.jobs[s.run.job].person == q
    ensures DoAdvance(s) == At(s, DeleteOld(OldPersons(s.samples, |s.samples|, q, v)))
  {
  }

  lemma FirstAdvance(s: State, n: nat)
    ensures Runs(s, Advances(n + 1)) == Runs(DoAdvance(s), Advances(n))
  {
    assert Advances(n + 1)[1..] == Advances(n);
  }

  lemma {:induction false} DeletesTakeSteps(s: State, v: nat, q: nat, todo: seq<nat>)
    requires s.profile.Some? && s.run.Running? && s.run.pc == DeleteOld(todo) && s.run.job < |s.jobs|
    requires !s.jobs[s.run.job].Revoke? && s.jobs[s.run.job].version == v && s.jobs[s.run.job].person == q
    ensures Runs(s, Advances(|todo| + 2))
            == At(s.(provider := WithoutAll(s.provider, todo),
                     samples := Marked(s.samples,
                         (k, x: Sample) => if k != q && x.version < v then Deleted else x.status)), Returned)
    decreases |todo|
  {
    FirstAdvance(s, |todo| + 1);
    DeleteStep(s, v, q, todo);
    if todo == [] {
      FirstAdvance(At(s, MarkOld), 0);
      MarkStep(At(s, MarkOld), v, q);
    } else {
      DeletesTakeSteps(At(Delete(s, todo[0]), DeleteOld(todo[1..])), v, q, todo[1..]);
    }
  }

  lemma DeleteStep(s: State, v: nat, q: nat, todo: seq<nat>)
    requires s.profile.Some? && s.run.Running? && s.run.pc == DeleteOld(todo) && s.run.job < |s.jobs|
    requires !s.jobs[s.run.job].Revoke? && s.jobs[s.run.job].version == v && s.jobs[s.run.job].person == q
    ensures DoAdvance(s) == if todo == [] then At(s, MarkOld) else At(Delete(s, todo[0]), DeleteOld(todo[1..]))
  {
  }

  lemma MarkStep(s: State, v: nat, q: nat)
    requires s.profile.Some? && s.run.Running? && s.run.pc == MarkOld && s.run.job < |s.jobs|
    requires !s.jobs[s.run.job].Revoke? && s.jobs[s.run.job].version == v && s.jobs[s.run.job].person == q
    ensures Runs(DoAdvance(s), Advances(0))
         == At(s.(samples := Marked(s.samples,
                      (k, x: Sample) => if k != q && x.version < v then Deleted else x.status)), Returned)
  {
  }
}
