// The face profile protocol: one profile of westpocketservice, the persons it created at the
// external face provider, and the worker that holds the profile's advisory lock. A step is one
// database transaction, one provider call or one crash.
module FaceProfile {
  import opened Common

  datatype Status = Pending | Active | Failed | Revoking | Revoked

  datatype Profile = Profile(status: Status, version: nat, revision: nat, person: Option<nat>)

  // The samples of one enrollment share a fresh person id; that id is the sample's position.
  datatype SampleStatus = Waiting | InUse | Deleting | Deleted | Rejected

  datatype Sample = Sample(version: nat, status: SampleStatus)

  // A queued job may be picked up, or picked up again after its lease ran out.
  datatype JobStatus = Queued | Succeeded | GaveUp

  datatype Job =
    | Enroll(version: nat, person: nat, status: JobStatus)
    | Revoke(version: nat, status: JobStatus)
    | Cleanup(version: nat, person: nat, status: JobStatus)

  function WithStatus(j: Job, status: JobStatus): Job {
    match j
    case Enroll(v, q, _) => Enroll(v, q, status)
    case Revoke(v, _) => Revoke(v, status)
    case Cleanup(v, q, _) => Cleanup(v, q, status)
  }

  // How far the job that holds the lock has come.
  datatype Pc =
    | Begin
    | CallProvider | Activate                              // enroll
    | DeleteOwn                                            // a stale enroll job
    | SelectOld | DeleteOld(todo: seq<nat>) | MarkOld      // finishEnrollmentCleanup
    | SelectAll | DeleteAll(todo: seq<nat>) | Commit       // revoke
    | CleanOwn | Reject                                    // cleanup_enrollment
    | Broken | Returned

  datatype Run = Idle | Running(job: nat, pc: Pc)

  // granted is the action of the last consent event; provider holds the persons that exist.
  datatype State = State(
    profile: Option<Profile>, granted: bool, samples: seq<Sample>, jobs: seq<Job>, provider: set<nat>, run: Run)

  datatype Step =
    | RequestEnroll(replace: bool, revision: nat) | RequestRevoke(revision: nat) | RequestRetry(job: nat)
    | Start(job: nat) | Advance | ProviderFails(effect: bool) | Fail(terminal: bool) | Crash

  // ------------------------------------------------------------------ the user's transactions

  predicate Withdrawn(p: Profile) {
    p.status == Revoking || p.status == Revoked
  }

  predicate MayEnroll(p: Profile, replace: bool, revision: nat) {
    && p.status != Revoking
    && (replace || p.status == Revoked || p.status == Failed)
    && (replace ==> p.revision == revision)
  }

  function DoEnroll(s: State, replace: bool, revision: nat): State {
    if replace && revision == 0 then s
    else if s.profile.None? then
      if replace then s else WithEnrollment(s, Profile(Pending, 1, 1, None))
    else
      var p := s.profile.value;
      if !MayEnroll(p, replace, revision) then s
      else WithEnrollment(s,
          Profile(if p.status == Active then Active else Pending, p.version + 1, p.revision + 1, p.person))
  }

  // The rows one enrollment adds: its sample, the consent event and the queued job.
  function WithEnrollment(s: State, p: Profile): State {
    s.(profile := Some(p), granted := true,
       samples := s.samples + [Sample(p.version, Waiting)],
       jobs := s.jobs + [Enroll(p.version, |s.samples|, Queued)])
  }

  function DoRevoke(s: State, revision: nat): State {
    if s.profile.None? || revision == 0 || s.profile.value.revision != revision then s
    else
      var p := s.profile.value;
      s.(profile := Some(Profile(Revoking, p.version + 1, p.revision + 1, p.person)), granted := false,
         jobs := s.jobs + [Revoke(p.version + 1, Queued)])
  }

  function DoRetry(s: State, j: nat): State {
    if j >= |s.jobs| || s.jobs[j].status != GaveUp || !s.jobs[j].Enroll? || s.profile.None? then s
    else if s.profile.value.version != s.jobs[j].version || Withdrawn(s.profile.value) then s
    else s.(jobs := s.jobs[j := WithStatus(s.jobs[j], Queued)])
  }

  // ------------------------------------------------------------------ the worker

  function At(s: State, pc: Pc): State
    requires s.run.Running?
  {
    s.(run := Running(s.run.job, pc))
  }

  function Delete(s: State, person: nat): State {
    s.(provider := s.provider - {person})
  }

  // The positions k < n whose sample satisfies the WHERE clause of finishEnrollmentCleanup.
  function OldPersons(samples: seq<Sample>, n: nat, person: nat, version: nat): (r: seq<nat>)
    requires n <= |samples|
    ensures forall k: nat :: k in r <==>
              k < n && k != person && samples[k].version < version && samples[k].status != Deleted
  {
    if n == 0 then []
    else
      var r := OldPersons(samples, n - 1, person, version);
      if n - 1 != person && samples[n - 1].version < version && samples[n - 1].status != Deleted then r + [n - 1] else r
  }

  function PersonsUpTo(samples: seq<Sample>, n: nat, version: nat): (r: seq<nat>)
    requires n <= |samples|
    ensures forall k: nat :: k in r <==> k < n && samples[k].version <= version
  {
    if n == 0 then []
    else
      var r := PersonsUpTo(samples, n - 1, version);
      if samples[n - 1].version <= version then r + [n - 1] else r
  }

  function Marked(samples: seq<Sample>, f: (nat, Sample) -> SampleStatus): (r: seq<Sample>)
    ensures |r| == |samples| && forall k :: 0 <= k < |r| ==> r[k] == Sample(samples[k].version, f(k, samples[k]))
  {
    seq(|samples|, k requires 0 <= k < |samples| => Sample(samples[k].version, f(k, samples[k])))
  }

  function EnrollStep(s: State, v: nat, q: nat): State
    requires s.run.Running? && s.profile.Some?
  {
    var p := s.profile.value;
    match s.run.pc
    case Begin =>
      if Withdrawn(p) || p.version != v then At(s, if p.person == Some(q) then SelectOld else DeleteOwn)
      else if p.person == Some(q) && p.status == Active then At(s, SelectOld)
      else At(s, CallProvider)
    case CallProvider => At(s.(provider := s.provider + {q}), Activate)
    case Activate =>
      if Withdrawn(p) || p.version != v then At(s, DeleteOwn)
      else At(s.(profile := Some(Profile(Active, p.version, p.revision + 1, Some(q))),
                 samples := Marked(s.samples, (k, x: Sample) => if x.version == v then InUse else Deleting)), SelectOld)
    case DeleteOwn => At(Delete(s, q), Returned)
    case _ => CleanStep(s, v, q)
  }

  function CleanStep(s: State, v: nat, q: nat): State
    requires s.run.Running?
  {
    match s.run.pc
    case SelectOld => At(s, DeleteOld(OldPersons(s.samples, |s.samples|, q, v)))
    case DeleteOld(todo) => if todo == [] then At(s, MarkOld) else At(Delete(s, todo[0]), DeleteOld(todo[1..]))
    case MarkOld =>
      At(s.(samples := Marked(s.samples, (k, x: Sample) => if k != q && x.version < v then Deleted else x.status)),
          Returned)
    case _ => s
  }

  function RevokeStep(s: State, v: nat): State
    requires s.run.Running? && s.profile.Some?
  {
    var p := s.profile.value;
    match s.run.pc
    case Begin => At(s, if p.status != Revoking || p.version != v then Returned else SelectAll)
    case SelectAll => At(s, DeleteAll(PersonsUpTo(s.samples, |s.samples|, v)))
    case DeleteAll(todo) => if todo == [] then At(s, Commit) else At(Delete(s, todo[0]), DeleteAll(todo[1..]))
    case Commit =>
      var erased := s.(samples := Marked(s.samples, (k, x: Sample) => Deleted));
      if p.version != v || p.status != Revoking then At(erased, Returned)
      else At(erased.(profile := Some(Profile(Revoked, p.version, p.revision + 1, None))), Returned)
    case _ => s
  }

  function CleanupStep(s: State, v: nat, q: nat): State
    requires s.run.Running? && s.profile.Some?
  {
    match s.run.pc
    case Begin => At(s, if s.profile.value.person == Some(q) then SelectOld else CleanOwn)
    case CleanOwn => At(Delete(s, q), Reject)
    case Reject =>
      At(s.(samples := Marked(s.samples, (k, x: Sample) => if k == q then Rejected else x.status)), Returned)
    case _ => CleanStep(s, v, q)
  }

  function DoAdvance(s: State): State {
    if s.run == Idle || s.run.job >= |s.jobs| || s.profile.None? then s
    else if s.run.pc == Returned then Finish(s, s.run.job, Succeeded)
    else
      match s.jobs[s.run.job]
      case Enroll(v, q, _) => EnrollStep(s, v, q)
      case Revoke(v, _) => RevokeStep(s, v)
      case Cleanup(v, q, _) => CleanupStep(s, v, q)
  }

  // The person the running job is about to create or delete at the provider.
  function Target(s: State): Option<nat>
    requires s.run.Running? && s.run.job < |s.jobs|
  {
    match s.run.pc
    case CallProvider => if s.jobs[s.run.job].Enroll? then Some(s.jobs[s.run.job].person) else None
    case DeleteOwn => if s.jobs[s.run.job].Enroll? then Some(s.jobs[s.run.job].person) else None
    case CleanOwn => if s.jobs[s.run.job].Cleanup? then Some(s.jobs[s.run.job].person) else None
    case DeleteOld(todo) => if todo == [] then None else Some(todo[0])
    case DeleteAll(todo) => if todo == [] then None else Some(todo[0])
    case _ => None
  }

  // A provider call that returns an error: a failed creation leaves the person there or not,
  // a failed deletion may have happened or not.
  function DoProviderFails(s: State, effect: bool): State {
    if s.run == Idle || s.run.job >= |s.jobs| || Target(s) == None then s
    else
      var person := Target(s).value;
      if s.run.pc == CallProvider
      then At(if effect then s.(provider := s.provider + {person}) else Delete(s, person), Broken)
      else At(if effect then Delete(s, person) else s, Broken)
  }

  function Finish(s: State, j: nat, status: JobStatus): State
    requires j < |s.jobs|
  {
    s.(jobs := s.jobs[j := WithStatus(s.jobs[j], status)], run := Idle)
  }

  predicate HasCleanup(jobs: seq<Job>, version: nat) {
    exists j :: 0 <= j < |jobs| && jobs[j].Cleanup? && jobs[j].version == version
  }

  // queue: a row with the same dedupe key stays as it is.
  function QueueCleanup(jobs: seq<Job>, version: nat, person: nat): seq<Job> {
    if HasCleanup(jobs, version) then jobs else jobs + [Cleanup(version, person, Queued)]
  }

  // finishJob after an error. Deletions are retried for ever; an enrollment may be given up,
  // which queues its cleanup and fails a pending profile.
  function DoFail(s: State, terminal: bool): State {
    if s.run == Idle || s.run.job >= |s.jobs| || s.run.pc == Returned || s.profile.None? then s
    else
      match s.jobs[s.run.job]
      case Enroll(v, q, _) =>
        if !terminal then s.(run := Idle)
        else
          var p := s.profile.value;
          var over := Finish(s, s.run.job, GaveUp);
          over.(jobs := QueueCleanup(over.jobs, v, q),
                profile := Some(if p.version == v && p.status == Pending then p.(status := Failed) else p))
      case _ => s.(run := Idle)
  }

  // ------------------------------------------------------------------ runs

  function Next(s: State, step: Step): State {
    match step
    case RequestEnroll(replace, revision) => DoEnroll(s, replace, revision)
    case RequestRevoke(revision) => DoRevoke(s, revision)
    case RequestRetry(j) => DoRetry(s, j)
    case Start(j) => if s.run == Idle && j < |s.jobs| && s.jobs[j].status == Queued then s.(run := Running(j, Begin))
      else s
    case Advance => DoAdvance(s)
    case ProviderFails(effect) => DoProviderFails(s, effect)
    case Fail(terminal) => DoFail(s, terminal)
    case Crash => s.(run := Idle)
  }

  const FRESH := State(None, false, [], [], {}, Idle)

  function Runs(s: State, trace: seq<Step>): State
    decreases |trace|
  {
    if trace == [] then s else Runs(Next(s, trace[0]), trace[1..])
  }
}
