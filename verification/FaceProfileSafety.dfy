// What every run of the face profile protocol keeps.
module FaceProfileSafety {
  import opened Common
  import opened FaceProfile

  // ------------------------------------------------------------------ the invariant

  ghost predicate SamplesInv(s: State, p: Profile) {
    && (forall k, l :: 0 <= k < l < |s.samples| ==> s.samples[k].version < s.samples[l].version)
    && (forall k :: 0 <= k < |s.samples| ==> s.samples[k].version <= p.version)
    && (forall k :: 0 <= k < |s.samples| && s.samples[k].status == Deleted ==>
          k !in s.provider && s.samples[k].version < p.version)
    && (forall q :: q in s.provider ==> q < |s.samples|)
  }

  ghost predicate ProfileInv(s: State, p: Profile) {
    && (p.person.Some? ==> p.person.value < |s.samples| && p.status in {Active, Revoking})
    && (p.status == Active ==> p.person.Some? && p.person.value in s.provider)
    && (p.status == Revoked ==> s.provider == {})
    && (Withdrawn(p) ==> forall k :: 0 <= k < |s.samples| ==> s.samples[k].version < p.version)
    && (s.granted <==> !Withdrawn(p))
  }

  ghost predicate JobInv(s: State, p: Profile, j: Job) {
    match j
    case Enroll(v, q, _) => q < |s.samples| && s.samples[q].version == v
    case Revoke(v, _) => v <= p.version
    case Cleanup(v, q, _) => q < |s.samples| && s.samples[q].version == v
  }

  // A profile that is being revoked always has a live job that will erase it.
  ghost predicate RevokeIsLive(s: State, p: Profile) {
    p.status == Revoking ==> exists j :: 0 <= j < |s.jobs| && s.jobs[j] == Revoke(p.version, Queued)
  }

  ghost predicate NoneOlder(s: State, v: nat, q: nat) {
    forall k :: k in s.provider && k < |s.samples| ==> k == q || s.samples[k].version >= v
  }

  // The cleanup of the enrollment that owns person q, at version v.
  ghost predicate CleanRun(s: State, p: Profile, v: nat, q: nat, pc: Pc) {
    match pc
    case SelectOld => p.person == Some(q)
    case DeleteOld(todo) =>
      && p.person == Some(q) && q !in todo
      && forall k :: k in s.provider && k < |s.samples| ==> k == q || s.samples[k].version >= v || k in todo
    case MarkOld => p.person == Some(q) && NoneOlder(s, v, q)
    case Returned => if p.person == Some(q) then NoneOlder(s, v, q) else q !in s.provider
    case _ => false
  }

  ghost predicate EnrollRun(s: State, p: Profile, v: nat, q: nat, pc: Pc)
    requires q < |s.samples|
  {
    match pc
    case Begin => true
    case Broken => true
    case CallProvider => p.person != Some(q) && p.status != Revoked && s.samples[q].status != Deleted
    case Activate => p.person != Some(q) && p.status != Revoked && s.samples[q].status != Deleted && q in s.provider
    case DeleteOwn => p.person != Some(q)
    case _ => CleanRun(s, p, v, q, pc)
  }

  ghost predicate CleanupRun(s: State, p: Profile, v: nat, q: nat, pc: Pc) {
    match pc
    case Begin => true
    case Broken => true
    case CleanOwn => p.person != Some(q)
    case Reject => p.person != Some(q) && q !in s.provider
    case _ => CleanRun(s, p, v, q, pc)
  }

  ghost predicate RevokeRun(s: State, p: Profile, v: nat, pc: Pc) {
    match pc
    case Begin => true
    case Broken => true
    case SelectAll => p.status == Revoking && forall k :: 0 <= k < |s.samples| ==> s.samples[k].version <= v
    case DeleteAll(todo) => p.status == Revoking && forall k :: k in s.provider ==> k in todo
    case Commit => p.status == Revoking && s.provider == {}
    case Returned => !(p.status == Revoking && p.version == v)
    case _ => false
  }

  ghost predicate RunInv(s: State, p: Profile) {
    s.run.Running? ==>
      && s.run.job < |s.jobs| && s.jobs[s.run.job].status == Queued && JobInv(s, p, s.jobs[s.run.job])
      && match s.jobs[s.run.job]
         case Enroll(v, q, _) => EnrollRun(s, p, v, q, s.run.pc)
         case Revoke(v, _) => RevokeRun(s, p, v, s.run.pc)
         case Cleanup(v, q, _) => CleanupRun(s, p, v, q, s.run.pc)
  }

  ghost predicate JobsInv(s: State, p: Profile) {
    forall j :: 0 <= j < |s.jobs| ==> JobInv(s, p, s.jobs[j])
  }

  ghost predicate Inv(s: State) {
    if s.profile.None? then s == FRESH.(granted := s.granted)
    else
      var p := s.profile.value;
      SamplesInv(s, p) && ProfileInv(s, p) && JobsInv(s, p) && RevokeIsLive(s, p) && RunInv(s, p)
  }

  // ------------------------------------------------------------------ every step keeps it

  ghost predicate TablesInv(s: State, p: Profile) {
    SamplesInv(s, p) && ProfileInv(s, p) && JobsInv(s, p) && RevokeIsLive(s, p)
  }

  lemma EnrollRequestKeeps(s: State, replace: bool, revision: nat)
    requires Inv(s)
    ensures Inv(DoEnroll(s, replace, revision))
  {
    var t := DoEnroll(s, replace, revision);
    if t != s && s.profile.Some? {
      EnrollRequestTables(s, replace, revision);
      EnrollRequestRun(s, replace, revision);
    }
  }

  lemma EnrollRequestTables(s: State, replace: bool, revision: nat)
    requires s.profile.Some? && TablesInv(s, s.profile.value) && DoEnroll(s, replace, revision) != s
    ensures DoEnroll(s, replace, revision).profile.Some?
    ensures TablesInv(DoEnroll(s, replace, revision), DoEnroll(s, replace, revision).profile.value)
  {
  }

  lemma EnrollRequestRun(s: State, replace: bool, revision: nat)
    requires s.profile.Some? && TablesInv(s, s.profile.value) && RunInv(s, s.profile.value)
    requires DoEnroll(s, replace, revision) != s
    ensures DoEnroll(s, replace, revision).profile.Some?
    ensures RunInv(DoEnroll(s, replace, revision), DoEnroll(s, replace, revision).profile.value)
  {
  }

  lemma RevokeRequestKeeps(s: State, revision: nat)
    requires Inv(s)
    ensures Inv(DoRevoke(s, revision))
  {
    var t := DoRevoke(s, revision);
    if t != s {
      assert t.jobs[|s.jobs|] == Revoke(t.profile.value.version, Queued);
    }
  }

  lemma RetryKeeps(s: State, j: nat)
    requires Inv(s)
    ensures Inv(DoRetry(s, j))
  {
    if DoRetry(s, j) != s { LiveRevokeSurvives(s, s.profile.value, j, Queued); }
  }

  // Changing the status of a job other than the live revoke job leaves that one live.
  lemma LiveRevokeSurvives(s: State, p: Profile, j: nat, status: JobStatus)
    requires RevokeIsLive(s, p) && j < |s.jobs| && (p.status == Revoking ==> s.jobs[j] != Revoke(p.version, Queued))
    ensures RevokeIsLive(s.(jobs := s.jobs[j := WithStatus(s.jobs[j], status)]), p)
  {
    if p.status == Revoking {
      var k :| 0 <= k < |s.jobs| && s.jobs[k] == Revoke(p.version, Queued);
      assert s.jobs[j := WithStatus(s.jobs[j], status)][k] == s.jobs[k];
    }
  }

  ghost predicate Runs1(s: State) {
    Inv(s) && s.profile.Some? && s.run.Running?
  }

  // Deleting a person that is not in use disturbs no table.
  lemma DeleteTables(s: State, p: Profile, k: nat)
    requires TablesInv(s, p) && (p.status == Active ==> p.person != Some(k))
    ensures TablesInv(Delete(s, k), p)
  {
  }

  // Nothing in the tables depends on how far the run has come.
  lemma PcTables(s: State, p: Profile, pc: Pc)
    requires TablesInv(s, p) && s.run.Running?
    ensures TablesInv(At(s, pc), p)
  {
  }

  lemma EnrollStepKeeps(s: State)
    requires Runs1(s) && s.jobs[s.run.job].Enroll? && s.run.pc != Returned
    ensures Inv(DoAdvance(s))
  {
    match s.run.pc
    case Begin => EnrollBegins(s);
    case CallProvider => EnrollCalls(s);
    case Activate => ActivateKeeps(s);
    case DeleteOwn => EnrollTakesBack(s);
    case SelectOld => OwnerCleans(s);
    case DeleteOld(_) => OwnerCleans(s);
    case MarkOld => OwnerCleans(s);
    case _ =>
  }

  lemma OwnerCleans(s: State)
    requires Runs1(s) && !s.jobs[s.run.job].Revoke?
    requires (s.run.pc == SelectOld || s.run.pc.DeleteOld? || s.run.pc == MarkOld)
    ensures Inv(DoAdvance(s))
  {
    CleanStepKeeps(s, s.jobs[s.run.job].version, s.jobs[s.run.job].person);
  }

  lemma EnrollBegins(s: State)
    requires Runs1(s) && s.jobs[s.run.job].Enroll? && s.run.pc == Begin
    ensures Inv(DoAdvance(s))
  {
    PcTables(s, s.profile.value, DoAdvance(s).run.pc);
  }

  lemma EnrollCalls(s: State)
    requires Runs1(s) && s.jobs[s.run.job].Enroll? && s.run.pc == CallProvider
    ensures Inv(DoAdvance(s))
  {
  }

  lemma EnrollTakesBack(s: State)
    requires Runs1(s) && s.jobs[s.run.job].Enroll? && s.run.pc == DeleteOwn
    ensures Inv(DoAdvance(s))
  {
  }

  // The enrollment is activated, or the profile has moved on and its person is taken back.
  lemma ActivateKeeps(s: State)
    requires Runs1(s) && s.jobs[s.run.job].Enroll? && s.run.pc == Activate
    ensures Inv(DoAdvance(s))
  {
    var p, v := s.profile.value, s.jobs[s.run.job].version;
    if !Withdrawn(p) && p.version == v {
      ActivateTables(s);
    }
  }

  lemma ActivateTables(s: State)
    requires Runs1(s) && s.jobs[s.run.job].Enroll? && s.run.pc == Activate
    requires !Withdrawn(s.profile.value) && s.profile.value.version == s.jobs[s.run.job].version
    ensures DoAdvance(s).profile.Some? && TablesInv(DoAdvance(s), DoAdvance(s).profile.value)
    ensures DoAdvance(s).profile.value.person == Some(s.jobs[s.run.job].person) && DoAdvance(s).jobs == s.jobs
  {
  }

  lemma CleanupStepKeeps(s: State)
    requires Runs1(s) && s.jobs[s.run.job].Cleanup? && s.run.pc != Returned
    ensures Inv(DoAdvance(s))
  {
    match s.run.pc
    case Begin => PcTables(s, s.profile.value, DoAdvance(s).run.pc);
    case CleanOwn => CleanupTakesBack(s);
    case Reject => RejectTables(s);
    case SelectOld => OwnerCleans(s);
    case DeleteOld(_) => OwnerCleans(s);
    case MarkOld => OwnerCleans(s);
    case _ =>
  }

  lemma CleanupTakesBack(s: State)
    requires Runs1(s) && s.jobs[s.run.job].Cleanup? && s.run.pc == CleanOwn
    ensures Inv(DoAdvance(s))
  {
  }

  lemma RejectTables(s: State)
    requires Runs1(s) && s.jobs[s.run.job].Cleanup? && s.run.pc == Reject
    ensures TablesInv(DoAdvance(s), s.profile.value) && DoAdvance(s).profile == s.profile
  {
  }

  ghost predicate Cleans(s: State, v: nat, q: nat) {
    && Runs1(s) && CleanRun(s, s.profile.value, v, q, s.run.pc) && s.run.pc != Returned
    && !s.jobs[s.run.job].Revoke? && s.jobs[s.run.job].version == v && s.jobs[s.run.job].person == q
  }

  lemma CleanStepKeeps(s: State, v: nat, q: nat)
    requires Cleans(s, v, q)
    ensures Inv(CleanStep(s, v, q))
  {
    CleanStepTables(s, v, q);
    CleanStepRun(s, v, q);
  }

  lemma CleanStepTables(s: State, v: nat, q: nat)
    requires Cleans(s, v, q)
    ensures CleanStep(s, v, q).profile == s.profile && TablesInv(CleanStep(s, v, q), s.profile.value)
  {
    var p := s.profile.value;
    match s.run.pc
    case SelectOld => PcTables(s, p, DeleteOld(OldPersons(s.samples, |s.samples|, q, v)));
    case DeleteOld(todo) =>
      if todo == [] {
        PcTables(s, p, MarkOld);
      } else {
        DeleteTables(s, p, todo[0]);
        PcTables(Delete(s, todo[0]), p, DeleteOld(todo[1..]));
      }
    case MarkOld => MarkTables(s, v, q);
  }

  lemma CleanStepRun(s: State, v: nat, q: nat)
    requires Cleans(s, v, q)
    ensures CleanStep(s, v, q).run.Running? && CleanStep(s, v, q).run.job == s.run.job
    ensures CleanStep(s, v, q).jobs == s.jobs
    ensures |CleanStep(s, v, q).samples| == |s.samples|
    ensures forall k :: 0 <= k < |s.samples| ==> CleanStep(s, v, q).samples[k].version == s.samples[k].version
    ensures CleanRun(CleanStep(s, v, q), s.profile.value, v, q, CleanStep(s, v, q).run.pc)
  {
  }

  lemma MarkTables(s: State, v: nat, q: nat)
    requires Cleans(s, v, q) && s.run.pc == MarkOld
    ensures TablesInv(CleanStep(s, v, q), s.profile.value) && CleanStep(s, v, q).profile == s.profile
  {
  }

  lemma RevokeStepKeeps(s: State)
    requires Runs1(s) && s.jobs[s.run.job].Revoke? && s.run.pc != Returned
    ensures Inv(DoAdvance(s))
  {
    match s.run.pc
    case Begin => PcTables(s, s.profile.value, DoAdvance(s).run.pc);
    case SelectAll => PcTables(s, s.profile.value, DoAdvance(s).run.pc);
    case DeleteAll(todo) => RevokeDeletes(s);
    case Commit => RevokeCommits(s);
    case _ =>
  }

  lemma RevokeDeletes(s: State)
    requires Runs1(s) && s.jobs[s.run.job].Revoke? && s.run.pc.DeleteAll?
    ensures Inv(DoAdvance(s))
  {
    var p, todo := s.profile.value, s.run.pc.todo;
    if todo == [] {
      PcTables(s, p, Commit);
    } else {
      DeleteTables(s, p, todo[0]);
      PcTables(Delete(s, todo[0]), p, DeleteAll(todo[1..]));
    }
  }

  lemma RevokeCommits(s: State)
    requires Runs1(s) && s.jobs[s.run.job].Revoke? && s.run.pc == Commit
    ensures Inv(DoAdvance(s))
  {
    var t := DoAdvance(s);
    forall j | 0 <= j < |t.jobs| ensures JobInv(t, t.profile.value, t.jobs[j]) {
      assert JobInv(s, s.profile.value, s.jobs[j]);
    }
  }

  lemma FinishKeeps(s: State)
    requires Runs1(s) && s.run.pc == Returned
    ensures Inv(DoAdvance(s))
  {
    LiveRevokeSurvives(s, s.profile.value, s.run.job, Succeeded);
  }

  lemma AdvanceKeeps(s: State)
    requires Inv(s)
    ensures Inv(DoAdvance(s))
  {
    if s.run.Running? {
      if s.run.pc == Returned { FinishKeeps(s); }
      else if s.jobs[s.run.job].Enroll? { EnrollStepKeeps(s); }
      else if s.jobs[s.run.job].Revoke? { RevokeStepKeeps(s); }
      else { CleanupStepKeeps(s); }
    }
  }

  lemma ProviderFailsKeeps(s: State, effect: bool)
    requires Inv(s)
    ensures Inv(DoProviderFails(s, effect))
  {
    if s.run.Running? && s.profile.Some? && Target(s).Some? {
      TargetUnused(s);
      if s.run.pc == CallProvider { CreationFails(s, effect); } else { DeletionFails(s, effect); }
    }
  }

  lemma CreationFails(s: State, effect: bool)
    requires Runs1(s) && s.run.pc == CallProvider && s.jobs[s.run.job].Enroll? && s.profile.value.person != Target(s)
    ensures Inv(DoProviderFails(s, effect))
  {
    var p, person := s.profile.value, s.jobs[s.run.job].person;
    if effect {
      PcTables(s.(provider := s.provider + {person}), p, Broken);
    } else {
      DeleteTables(s, p, person);
      PcTables(Delete(s, person), p, Broken);
    }
  }

  lemma DeletionFails(s: State, effect: bool)
    requires Runs1(s) && s.run.pc != CallProvider && Target(s).Some?
    requires s.profile.value.status == Active ==> s.profile.value.person != Target(s)
    ensures Inv(DoProviderFails(s, effect))
  {
    var p, person := s.profile.value, Target(s).value;
    if effect {
      DeleteTables(s, p, person);
      PcTables(Delete(s, person), p, Broken);
    } else {
      PcTables(s, p, Broken);
    }
  }

  // No job ever asks the provider to delete the person in use.
  lemma TargetUnused(s: State)
    requires Runs1(s) && Target(s).Some?
    ensures s.profile.value.status == Active ==> s.profile.value.person != Target(s)
    ensures s.run.pc == CallProvider ==> s.profile.value.person != Target(s)
  {
  }

  lemma FailKeeps(s: State, terminal: bool)
    requires Inv(s)
    ensures Inv(DoFail(s, terminal))
  {
    if s.run.Running? && s.jobs[s.run.job].Enroll? && terminal && s.run.pc != Returned {
      var p := s.profile.value;
      LiveRevokeSurvives(s, p, s.run.job, GaveUp);
      var over := Finish(s, s.run.job, GaveUp);
      assert RevokeIsLive(over, p);
      QueueKeepsLive(over, p, s.jobs[s.run.job].version, s.jobs[s.run.job].person);
    }
  }

  lemma QueueKeepsLive(s: State, p: Profile, v: nat, q: nat)
    requires RevokeIsLive(s, p)
    ensures RevokeIsLive(s.(jobs := QueueCleanup(s.jobs, v, q)), p)
  {
    if p.status == Revoking {
      var k :| 0 <= k < |s.jobs| && s.jobs[k] == Revoke(p.version, Queued);
      assert QueueCleanup(s.jobs, v, q)[k] == s.jobs[k];
    }
  }

  lemma StartKeeps(s: State, j: nat)
    requires Inv(s)
    ensures Inv(Next(s, Start(j)))
  {
  }

  lemma CrashKeeps(s: State)
    requires Inv(s)
    ensures Inv(Next(s, Crash))
  {
  }

  lemma StepKeeps(s: State, step: Step)
    requires Inv(s)
    ensures Inv(Next(s, step))
  {
    match step
    case RequestEnroll(replace, revision) => EnrollRequestKeeps(s, replace, revision);
    case RequestRevoke(revision) => RevokeRequestKeeps(s, revision);
    case RequestRetry(j) => RetryKeeps(s, j);
    case Start(j) => StartKeeps(s, j);
    case Advance => AdvanceKeeps(s);
    case ProviderFails(effect) => ProviderFailsKeeps(s, effect);
    case Fail(terminal) => FailKeeps(s, terminal);
    case Crash => CrashKeeps(s);
  }

  lemma {:induction false} RunsKeep(s: State, trace: seq<Step>)
    requires Inv(s)
    ensures Inv(Runs(s, trace))
    decreases |trace|
  {
    if trace != [] {
      StepKeeps(s, trace[0]);
      RunsKeep(Next(s, trace[0]), trace[1..]);
    }
  }
}
