/** The next-action lease issuer: which lease an action gets, and the one-shot maps that let a
 *  dispatcher use exactly what was ensured for it. */
module LeaseIssuer {
  import opened Wrappers

  type Uuid = nat

  /** Microseconds. */
  type Time = int

  const MINUTE: int := 60_000_000
  const LEASE_DURATION: int := 15 * MINUTE
  const WARDEN_MINIMUM: int := 10 * MINUTE

  datatype Role = AgentArchitect | ToolIntegrator | RealCaseTester | QualityWarden

  datatype ActionKind =
    | DispatchAgentArchitect | DispatchToolIntegrator | SubmitForgeJob | DispatchBuildValidator
    | DispatchRealCaseTester | DispatchTechnicalRevalidation | DispatchQualityWarden | OtherAction

  datatype Action = Action(kind: ActionKind, attempt: int)

  datatype Intent = NoIntegration | N8n

  datatype Profile = ArchitectProfile | IntegratorProfile | TesterProfile | WardenProfile | N8nBuilderProfile

  /** `deadline` is absent from first-version jobs; `offline` forbids n8n. */
  datatype Job = Job(
    jobId: Uuid, correlationId: Uuid, subjectVersion: nat, deadline: Option<Time>, offline: bool,
    liveCapabilities: set<nat>)

  /** A workspace under an issuer's prefix for one action, or any other text. */
  datatype Workspace =
    | Prefixed(namespace: nat, jobId: Uuid, kind: ActionKind, attempt: int, epoch: Time)
    | Elsewhere(text: nat)

  /** A digest of everything a lease grants. */
  datatype LeaseId =
    | Granted(jobId: Uuid, role: Role, attempt: int, workspace: Workspace, intent: Intent, profile: Profile,
              capabilities: set<nat>)
    | OtherId(text: nat)

  datatype Lease = Lease(
    leaseId: LeaseId, jobId: Uuid, correlationId: Uuid, subjectVersion: nat, attempt: int, role: Role,
    profile: Profile, intent: Intent, capabilities: set<nat>, workspace: Workspace, issuedAt: Time, expiresAt: Time)

  datatype RetryAuthorization = RetryAuthorization(
    jobId: Uuid, correlationId: Uuid, subjectVersion: nat, attempt: int, leaseId: LeaseId, workspace: Workspace,
    issuedAt: Time)

  datatype BatchId = RenewalBatch(jobId: Uuid) | GenericBatch(jobId: Uuid) | OtherBatch(text: nat)

  /** A released work batch; `forN8n` stands for its target, runtime and builder tag. */
  datatype Batch = Batch(batchId: BatchId, forN8n: bool, readsRenewalContext: bool, buildsWorkflow: bool)

  datatype Key = Key(jobId: Uuid, role: Role, attempt: int)

  function RoleOf(kind: ActionKind): Option<Role> {
    match kind
    case DispatchAgentArchitect => Some(AgentArchitect)
    case DispatchToolIntegrator => Some(ToolIntegrator)
    case SubmitForgeJob => Some(ToolIntegrator)
    case DispatchBuildValidator => Some(ToolIntegrator)
    case DispatchRealCaseTester => Some(RealCaseTester)
    case DispatchTechnicalRevalidation => Some(RealCaseTester)
    case DispatchQualityWarden => Some(QualityWarden)
    case OtherAction => None
  }

  function ProfileOf(role: Role, intent: Intent): Profile {
    match role
    case AgentArchitect => ArchitectProfile
    case ToolIntegrator => if intent == N8n then N8nBuilderProfile else IntegratorProfile
    case RealCaseTester => TesterProfile
    case QualityWarden => WardenProfile
  }

  // ---------------------------------------------------------------- issuing and validating

  function Capabilities(base: Profile -> set<nat>, job: Job, role: Role, profile: Profile): set<nat> {
    base(profile) + if role == RealCaseTester then job.liveCapabilities else {}
  }

  function Issue(
    base: Profile -> set<nat>, job: Job, role: Role, attempt: int, workspace: Workspace, now: Time, intent: Intent)
    : Option<Lease>
  {
    var expires, profile := now + LEASE_DURATION, ProfileOf(role, intent);
    var capabilities := Capabilities(base, job, role, profile);
    if (job.deadline.Some? && expires > job.deadline.value) || (job.offline && intent == N8n) then None
    else
      Some(Lease(Granted(job.jobId, role, attempt, workspace, intent, profile, capabilities), job.jobId,
                 job.correlationId, job.subjectVersion, attempt, role, profile, intent, capabilities, workspace, now,
                 expires))
  }

  /** What `validate_factory_lease` accepts at a moment. */
  predicate ValidLease(base: Profile -> set<nat>, lease: Lease, job: Job, role: Role, attempt: int, now: Time) {
    var expected := Capabilities(base, job, role, lease.profile);
    && !(job.offline && lease.intent == N8n)
    && lease.jobId == job.jobId && lease.correlationId == job.correlationId
    && lease.subjectVersion == job.subjectVersion && lease.attempt == attempt
    && lease.role == role
    && lease.issuedAt <= now < lease.expiresAt
    && lease.capabilities == expected
    && lease.leaseId == Granted(job.jobId, role, attempt, lease.workspace, lease.intent, lease.profile, expected)
  }

  /** A lease is valid from its issue until it expires, and not after. */
  lemma IssuedIsValid(
    base: Profile -> set<nat>, job: Job, role: Role, attempt: int, workspace: Workspace, now: Time, intent: Intent,
    at: Time)
    requires Issue(base, job, role, attempt, workspace, now, intent).Some?
    ensures ValidLease(base, Issue(base, job, role, attempt, workspace, now, intent).value, job, role, attempt, at)
      <==> now <= at < now + LEASE_DURATION
  {
  }

  /** The roles an action kind may be dispatched under: at most one. */
  ghost predicate Serves(kind: ActionKind, role: Role) {
    match role
    case AgentArchitect => kind == DispatchAgentArchitect
    case ToolIntegrator => kind in {DispatchToolIntegrator, SubmitForgeJob, DispatchBuildValidator}
    case RealCaseTester => kind in {DispatchRealCaseTester, DispatchTechnicalRevalidation}
    case QualityWarden => kind == DispatchQualityWarden
  }

  lemma RoleServes(kind: ActionKind, role: Role)
    ensures RoleOf(kind) == Some(role) <==> Serves(kind, role)
  {
  }

  /** The profile that goes with a role; an integrator builds with n8n only under an n8n intent. */
  ghost predicate Profiled(role: Role, intent: Intent, profile: Profile) {
    && (profile == ArchitectProfile <==> role == AgentArchitect)
    && (profile == N8nBuilderProfile <==> role == ToolIntegrator && intent == N8n)
    && (profile == IntegratorProfile <==> role == ToolIntegrator && intent == NoIntegration)
    && (profile == TesterProfile <==> role == RealCaseTester)
    && (profile == WardenProfile <==> role == QualityWarden)
  }

  /** A lease is issued unless it would outlive the deadline or take n8n offline, and then it is the job's own in
   *  every field, for fifteen minutes, with the capabilities of its role's profile; only a tester also gets the
   *  job's live capabilities. */
  lemma IssuedLease(
    base: Profile -> set<nat>, job: Job, role: Role, attempt: int, workspace: Workspace, now: Time, intent: Intent)
    ensures Issue(base, job, role, attempt, workspace, now, intent).Some?
      <==> (job.deadline.Some? ==> now + 15 * 60 * 1_000_000 <= job.deadline.value) && (intent == N8n ==> !job.offline)
    ensures var issued := Issue(base, job, role, attempt, workspace, now, intent);
      issued.Some? ==>
        var lease := issued.value;
        && Profiled(role, intent, lease.profile)
        && lease == Lease(
             Granted(job.jobId, role, attempt, workspace, intent, lease.profile, lease.capabilities), job.jobId,
             job.correlationId, job.subjectVersion, attempt, role, lease.profile, intent, lease.capabilities, workspace,
             now, now + 15 * 60 * 1_000_000)
        && forall x :: x in lease.capabilities <==>
             x in base(lease.profile) || (role == RealCaseTester && x in job.liveCapabilities)
  {
  }

  /** A lease is valid at a moment exactly when it is active then, and agrees with the job in every field but its
   *  profile, integration, workspace and times, under the digest of all of them. */
  lemma ValidIff(base: Profile -> set<nat>, lease: Lease, job: Job, role: Role, attempt: int, now: Time)
    ensures ValidLease(base, lease, job, role, attempt, now)
      <==> && lease.issuedAt <= now < lease.expiresAt && (lease.intent == N8n ==> !job.offline)
           && lease == Lease(
                Granted(job.jobId, role, attempt, lease.workspace, lease.intent, lease.profile, lease.capabilities),
                job.jobId, job.correlationId, job.subjectVersion, attempt, role, lease.profile, lease.intent,
                base(lease.profile) + (if role == RealCaseTester then job.liveCapabilities else {}), lease.workspace,
                lease.issuedAt, lease.expiresAt)
  {
  }

  /** What an action needs of a lease to reuse it. */
  datatype Need = Need(job: Job, action: Action, role: Role, intent: Intent, namespace: nat, now: Time)

  function PrefixedBy(need: Need, epoch: Time): Workspace {
    Prefixed(need.namespace, need.job.jobId, need.action.kind, need.action.attempt, epoch)
  }

  /** A new lease for the action, in a workspace of its own. */
  function IssueFor(base: Profile -> set<nat>, need: Need): Option<Lease> {
    Issue(base, need.job, need.role, need.action.attempt, PrefixedBy(need, need.now), need.now, need.intent)
  }

  predicate Fits(base: Profile -> set<nat>, need: Need, lease: Lease) {
    && ValidLease(base, lease, need.job, need.role, need.action.attempt, need.now)
    && (need.action.kind == DispatchAgentArchitect
        || (lease.workspace.Prefixed? && lease.workspace == PrefixedBy(need, lease.workspace.epoch)))
    && lease.intent == need.intent
    && (need.role == QualityWarden ==> lease.expiresAt - need.now >= WARDEN_MINIMUM)
  }

  /** A lease issued for an action is reused for the same action for fifteen minutes, and for a warden only while
   *  ten minutes are left; it is never reused for another attempt, role or integration, and only an architect
   *  reuses one across action kinds. */
  lemma IssuedFits(base: Profile -> set<nat>, need: Need, other: Need)
    requires IssueFor(base, need).Some? && other.job == need.job && other.namespace == need.namespace
    ensures Fits(base, other, IssueFor(base, need).value)
      <==> && other.action.attempt == need.action.attempt && other.role == need.role && other.intent == need.intent
           && (other.action.kind == need.action.kind || other.action.kind == DispatchAgentArchitect)
           && need.now <= other.now < need.now + 15 * 60 * 1_000_000
           && (other.role == QualityWarden ==> other.now <= need.now + 5 * 60 * 1_000_000)
  {
  }

  datatype Selection = NoMatch | Selected(lease: Lease) | Ambiguous

  /** The fitting lease at `k` is newer than every other fitting one. */
  predicate NewestAt(base: Profile -> set<nat>, need: Need, leases: seq<Lease>, k: nat)
    requires k < |leases|
  {
    Fits(base, need, leases[k])
    && forall j :: 0 <= j < |leases| && j != k && Fits(base, need, leases[j]) ==>
         leases[j].issuedAt < leases[k].issuedAt
  }

  /** Positions listed once and in order. */
  predicate Increasing(positions: seq<nat>) {
    forall i, j :: 0 <= i < j < |positions| ==> positions[i] < positions[j]
  }

  /** Collect the fitting leases, and among them the newest ones; more than one is ambiguous. */
  method ExactActiveLease(base: Profile -> set<nat>, need: Need, leases: seq<Lease>) returns (selection: Selection)
    ensures selection.NoMatch? <==> forall k :: 0 <= k < |leases| ==> !Fits(base, need, leases[k])
    ensures selection.Selected? <==> exists k :: 0 <= k < |leases| && NewestAt(base, need, leases, k)
    ensures selection.Selected? ==>
      exists k :: 0 <= k < |leases| && NewestAt(base, need, leases, k) && leases[k] == selection.lease
  {
    hide Fits;
    var matches: seq<nat> := [];
    for i := 0 to |leases|
      invariant forall k :: k in matches <==> 0 <= k < i && Fits(base, need, leases[k])
      invariant forall j :: 0 <= j < |matches| ==> matches[j] < |leases|
    {
      if Fits(base, need, leases[i]) {
        matches := matches + [i];
      }
    }
    if matches == [] {
      assert forall k :: 0 <= k < |leases| ==> k !in matches;
      return NoMatch;
    }
    assert matches[0] in matches;
    var latestIssuedAt := leases[matches[0]].issuedAt;
    for i := 1 to |matches|
      invariant exists m :: m in matches && leases[m].issuedAt == latestIssuedAt
      invariant forall j :: 0 <= j < i ==> leases[matches[j]].issuedAt <= latestIssuedAt
    {
      assert matches[i] in matches;
      if leases[matches[i]].issuedAt > latestIssuedAt {
        latestIssuedAt := leases[matches[i]].issuedAt;
      }
    }
    var latest: seq<nat> := [];
    for i := 0 to |leases|
      invariant forall k :: k in latest <==> 0 <= k < i && k in matches && leases[k].issuedAt == latestIssuedAt
      invariant Increasing(latest) && forall j :: 0 <= j < |latest| ==> latest[j] < i
    {
      if i in matches && leases[i].issuedAt == latestIssuedAt {
        latest := latest + [i];
      }
    }
    var m :| m in matches && leases[m].issuedAt == latestIssuedAt;
    assert m in latest;
    if |latest| != 1 {
      assert latest[0] in latest && latest[1] in latest && latest[0] < latest[1];
      return Ambiguous;
    }
    assert forall k :: k in latest ==> k == latest[0];
    assert latest[0] in latest;
    assert NewestAt(base, need, leases, latest[0]);
    return Selected(leases[latest[0]]);
  }

  // ---------------------------------------------------------------- the log of one-shot authorizations

  /** An authorization put into a map, or popped from it, with the lease a successful pop returned. */
  datatype Entry =
    | Ensured(key: Key, lease: Lease, recovery: bool)
    | Popped(key: Key, recovery: bool, returned: Option<Lease>)

  predicate About(e: Entry, key: Key, recovery: bool) {
    e.key == key && e.recovery == recovery
  }

  /** The authorization a map holds: what the last entry about it ensured. */
  function Pending(log: seq<Entry>, key: Key, recovery: bool): Option<Lease> {
    if log == [] then None
    else
      var last := log[|log| - 1];
      if !About(last, key, recovery) then Pending(log[..|log| - 1], key, recovery)
      else if last.Ensured? then Some(last.lease)
      else None
  }

  /** Every successful use returned what was pending, recovery before ordinary. */
  ghost predicate Honest(log: seq<Entry>) {
    forall i :: 0 <= i < |log| && log[i].Popped? && log[i].returned.Some? ==>
      && Pending(log[..i], log[i].key, log[i].recovery) == log[i].returned
      && (!log[i].recovery ==> Pending(log[..i], log[i].key, true).None?)
  }

  function Ensures(log: seq<Entry>, key: Key, recovery: bool): nat {
    if log == [] then 0
    else
      var last := log[|log| - 1];
      Ensures(log[..|log| - 1], key, recovery) + if About(last, key, recovery) && last.Ensured? then 1 else 0
  }

  function Uses(log: seq<Entry>, key: Key, recovery: bool): nat {
    if log == [] then 0
    else
      var last := log[|log| - 1];
      Uses(log[..|log| - 1], key, recovery)
      + if About(last, key, recovery) && last.Popped? && last.returned.Some? then 1 else 0
  }

  lemma HonestPrefix(log: seq<Entry>)
    requires Honest(log) && log != []
    ensures Honest(log[..|log| - 1])
  {
    var n := |log| - 1;
    assert forall i :: 0 <= i < n ==> log[..n][..i] == log[..i];
  }

  /** Each use consumes an ensure of its own: uses and the pending authorization never outnumber them. */
  lemma {:induction false} UsesWithinEnsures(log: seq<Entry>, key: Key, recovery: bool)
    requires Honest(log)
    ensures Uses(log, key, recovery) + (if Pending(log, key, recovery).Some? then 1 else 0)
         <= Ensures(log, key, recovery)
  {
    if log != [] {
      HonestPrefix(log);
      UsesWithinEnsures(log[..|log| - 1], key, recovery);
    }
  }

  /** What is pending was ensured last, and nothing about it happened since. */
  lemma {:induction false} PendingIsLatestEnsure(log: seq<Entry>, key: Key, recovery: bool) returns (at: nat)
    requires Pending(log, key, recovery).Some?
    ensures at < |log| && log[at] == Ensured(key, Pending(log, key, recovery).value, recovery)
    ensures forall j :: at < j < |log| ==> !About(log[j], key, recovery)
  {
    var n := |log| - 1;
    if About(log[n], key, recovery) {
      at := n;
    } else {
      at := PendingIsLatestEnsure(log[..n], key, recovery);
    }
  }

  /** A successful use returns the lease of the latest ensure for its job, role and attempt, with no other
   *  use or ensure in between, and an ordinary one only while no recovery is pending. */
  lemma UseReturnsLatestEnsure(log: seq<Entry>, i: nat) returns (at: nat)
    requires Honest(log) && i < |log| && log[i].Popped? && log[i].returned.Some?
    ensures at < i && log[at] == Ensured(log[i].key, log[i].returned.value, log[i].recovery)
    ensures forall j :: at < j < i ==> !About(log[j], log[i].key, log[i].recovery)
    ensures !log[i].recovery ==> Pending(log[..i], log[i].key, true).None?
  {
    at := PendingIsLatestEnsure(log[..i], log[i].key, log[i].recovery);
  }

  lemma LogGrows(log: seq<Entry>, e: Entry)
    ensures forall key, recovery ::
      Pending(log + [e], key, recovery)
      == (if !About(e, key, recovery) then Pending(log, key, recovery) else if e.Ensured? then Some(e.lease) else None)
    ensures Honest(log)
         && (e.Popped? && e.returned.Some? ==>
               Pending(log, e.key, e.recovery) == e.returned && (!e.recovery ==> Pending(log, e.key, true).None?))
         ==> Honest(log + [e])
  {
    assert (log + [e])[..|log|] == log;
    assert forall i :: 0 <= i < |log| ==> (log + [e])[..i] == log[..i];
  }

  /** Another lease was recorded under this lease's id. */
  predicate IdTaken(recorded: seq<Lease>, lease: Lease) {
    exists k :: 0 <= k < |recorded| && recorded[k].leaseId == lease.leaseId && recorded[k] != lease
  }

  /** The recovery authorization speaks for this job and attempt, now. */
  predicate RecoversNow(authorization: RetryAuthorization, job: Job, attempt: int, now: Time) {
    && authorization.jobId == job.jobId
    && authorization.correlationId == job.correlationId
    && authorization.subjectVersion == job.subjectVersion
    && authorization.attempt == attempt
    && authorization.issuedAt <= now
    && job.deadline.Some? && now < job.deadline.value
  }

  predicate Identifies(authorization: RetryAuthorization, lease: Lease) {
    lease.leaseId == authorization.leaseId && lease.workspace == authorization.workspace
  }

  /** A retry authorization recovers a lease exactly when it is the job's own for this attempt, was issued by now, and
   *  names the lease's id and workspace, before the deadline. */
  lemma RecoveryIff(authorization: RetryAuthorization, lease: Lease, job: Job, attempt: int, now: Time)
    ensures RecoversNow(authorization, job, attempt, now) && Identifies(authorization, lease)
      <==> && authorization == RetryAuthorization(job.jobId, job.correlationId, job.subjectVersion, attempt,
                                                  lease.leaseId, lease.workspace, authorization.issuedAt)
           && authorization.issuedAt <= now && job.deadline.Some? && now < job.deadline.value
  {
  }

  /** The maps hold exactly what is pending, and so far every use was honest. */
  ghost predicate Tracked(
    log: seq<Entry>, authorized: map<Key, (Job, Lease)>, recoveries: map<Key, (Job, Lease, RetryAuthorization)>)
  {
    && (forall key :: Pending(log, key, false) == if key in authorized then Some(authorized[key].1) else None)
    && (forall key :: Pending(log, key, true) == if key in recoveries then Some(recoveries[key].1) else None)
    && Honest(log)
  }

  lemma TrackEnsured(
    log: seq<Entry>, authorized: map<Key, (Job, Lease)>, recoveries: map<Key, (Job, Lease, RetryAuthorization)>,
    key: Key, job: Job, lease: Lease, authorization: RetryAuthorization)
    requires Tracked(log, authorized, recoveries)
    ensures Tracked(log + [Ensured(key, lease, false)], authorized[key := (job, lease)], recoveries)
    ensures Tracked(log + [Ensured(key, lease, true)], authorized, recoveries[key := (job, lease, authorization)])
  {
    hide Honest, Pending;
    LogGrows(log, Ensured(key, lease, false));
    LogGrows(log, Ensured(key, lease, true));
  }

  lemma TrackPopped(
    log: seq<Entry>, authorized: map<Key, (Job, Lease)>, recoveries: map<Key, (Job, Lease, RetryAuthorization)>,
    key: Key, returned: Option<Lease>)
    requires Tracked(log, authorized, recoveries)
    ensures key in recoveries && (returned.Some? ==> returned.value == recoveries[key].1) ==>
      Tracked(log + [Popped(key, true, returned)], authorized, recoveries - {key})
    ensures key !in recoveries && key in authorized && (returned.Some? ==> returned.value == authorized[key].1) ==>
      Tracked(log + [Popped(key, false, returned)], authorized - {key}, recoveries)
  {
    hide Honest, Pending;
    LogGrows(log, Popped(key, true, returned));
    LogGrows(log, Popped(key, false, returned));
  }

  lemma PendingHeld(
    log: seq<Entry>, authorized: map<Key, (Job, Lease)>, recoveries: map<Key, (Job, Lease, RetryAuthorization)>,
    key: Key)
    requires Tracked(log, authorized, recoveries)
    ensures key in recoveries ==> Pending(log, key, true) == Some(recoveries[key].1)
    ensures key in authorized ==> Pending(log, key, false) == Some(authorized[key].1)
  {
  }

  /** The lease an action gets: the unique newest fitting one, or else a newly issued one. */
  ghost predicate Chosen(base: Profile -> set<nat>, need: Need, recorded: seq<Lease>, lease: Lease) {
    && (need.role == QualityWarden ==> lease.expiresAt - need.now >= WARDEN_MINIMUM)
    && if forall k :: 0 <= k < |recorded| ==> !Fits(base, need, recorded[k]) then
         Some(lease) == IssueFor(base, need)
       else
         exists k :: 0 <= k < |recorded| && NewestAt(base, need, recorded, k) && recorded[k] == lease
  }

  /** The lease an action gets from what is recorded, if any: none when two newest ones tie, or when nothing
   *  fits and none can be issued. */
  ghost function ChosenLease(base: Profile -> set<nat>, need: Need, recorded: seq<Lease>): Option<Lease> {
    if forall k :: 0 <= k < |recorded| ==> !Fits(base, need, recorded[k]) then IssueFor(base, need)
    else if exists k :: 0 <= k < |recorded| && NewestAt(base, need, recorded, k) then
      var k :| 0 <= k < |recorded| && NewestAt(base, need, recorded, k);
      Some(recorded[k])
    else None
  }

  /** At most one fitting lease is newer than all others. */
  lemma NewestIsUnique(base: Profile -> set<nat>, need: Need, recorded: seq<Lease>, j: nat, k: nat)
    requires j < |recorded| && NewestAt(base, need, recorded, j)
    requires k < |recorded| && NewestAt(base, need, recorded, k)
    ensures j == k
  {
    hide Fits;
  }

  lemma NewestIsChosen(base: Profile -> set<nat>, need: Need, recorded: seq<Lease>, k: nat)
    requires k < |recorded| && NewestAt(base, need, recorded, k)
    ensures ChosenLease(base, need, recorded) == Some(recorded[k])
  {
    hide Fits;
    var j :| 0 <= j < |recorded| && NewestAt(base, need, recorded, j)
             && ChosenLease(base, need, recorded) == Some(recorded[j]);
    NewestIsUnique(base, need, recorded, j, k);
  }

  /** What is chosen is valid now and belongs to the job. */
  lemma ChosenIsValid(base: Profile -> set<nat>, need: Need, recorded: seq<Lease>, lease: Lease)
    requires ChosenLease(base, need, recorded) == Some(lease)
    ensures ValidLease(base, lease, need.job, need.role, need.action.attempt, need.now)
    ensures lease.jobId == need.job.jobId && Chosen(base, need, recorded, lease)
    ensures lease.role == need.role && lease.intent == need.intent
  {
    hide ValidLease, Issue;
    WardenHasTime(base, need, lease);
    if IssueFor(base, need) == Some(lease) {
      IssuedIsValid(base, need.job, need.role, need.action.attempt, PrefixedBy(need, need.now), need.now, need.intent,
                    need.now);
      ValidBelongs(base, need, lease);
    } else {
      ValidBelongs(base, need, lease);
    }
  }

  /** None or several matches name no single lease. */
  lemma NoOnlyMatch(recorded: seq<Lease>, authorization: RetryAuthorization, matches: seq<nat>)
    requires forall k :: k in matches <==> 0 <= k < |recorded| && Identifies(authorization, recorded[k])
    requires Increasing(matches) && |matches| != 1
    ensures forall k: nat :: k < |recorded| ==> !OnlyMatch(recorded, authorization, k)
  {
    hide Identifies;
    if k: nat :| k < |recorded| && OnlyMatch(recorded, authorization, k) {
      assert k in matches;
      assert matches[0] in matches && matches[1] in matches && matches[0] < matches[1];
    }
  }

  lemma ValidBelongs(base: Profile -> set<nat>, need: Need, lease: Lease)
    ensures ValidLease(base, lease, need.job, need.role, need.action.attempt, need.now) ==>
      lease.jobId == need.job.jobId && lease.role == need.role
    ensures Fits(base, need, lease) || IssueFor(base, need) == Some(lease) ==> lease.intent == need.intent
  {
  }

  /** The authorization names this recorded lease and no other. */
  predicate OnlyMatch(recorded: seq<Lease>, authorization: RetryAuthorization, k: nat)
    requires k < |recorded|
  {
    Identifies(authorization, recorded[k])
    && forall j :: 0 <= j < |recorded| && j != k ==> !Identifies(authorization, recorded[j])
  }

  // ---------------------------------------------------------------- the object

  class Issuer {
    const base: Profile -> set<nat>
    const namespace: nat
    /** The store: jobs, their recorded leases, released batches, and the durable batch source if any. */
    var jobs: map<Uuid, Job>
    var leases: map<Uuid, seq<Lease>>
    var bundles: map<BatchId, Batch>
    var durable: Option<map<Uuid, BatchId>>
    /** The issuer's own maps. */
    var batches: map<Uuid, BatchId>
    var authorized: map<Key, (Job, Lease)>
    var recoveries: map<Key, (Job, Lease, RetryAuthorization)>
    ghost var log: seq<Entry>

    ghost predicate Valid()
      reads this
    {
      Tracked(log, authorized, recoveries)
    }

    constructor (base: Profile -> set<nat>, namespace: nat, jobs: map<Uuid, Job>, leases: map<Uuid, seq<Lease>>,
                 bundles: map<BatchId, Batch>, durable: Option<map<Uuid, BatchId>>, batches: map<Uuid, BatchId>)
      ensures Valid() && log == []
    {
      this.base, this.namespace, this.jobs, this.leases := base, namespace, jobs, leases;
      this.bundles, this.durable, this.batches := bundles, durable, batches;
      authorized, recoveries, log := map[], map[], [];
    }

    /** The leases the store shows for a job. */
    function Recorded(jobId: Uuid): seq<Lease>
      reads this
    {
      if jobId in leases then leases[jobId] else []
    }

    /** The batch bound to a job; a durable source must agree with what is bound here. */
    function BatchFor(jobId: Uuid): Result<Option<BatchId>>
      reads this
    {
      var bound := if jobId in batches then Some(batches[jobId]) else None;
      if durable.None? then Success(bound)
      else
        var found := if jobId in durable.value then Some(durable.value[jobId]) else None;
        if bound.Some? && found != bound then Failure(Conflict) else Success(found)
    }

    /** The integration an action needs: n8n exactly for an integrator dispatch with a released batch. */
    function IntentFor(job: Job, action: Action, role: Role): Result<Intent>
      reads this
    {
      var bound :- BatchFor(job.jobId);
      if bound.None? || role != ToolIntegrator || action.kind != DispatchToolIntegrator then Success(NoIntegration)
      else if bound.value !in bundles then Failure(Conflict)
      else
        var batch := bundles[bound.value];
        if batch.batchId == bound.value && batch.forN8n
           && ((bound.value == RenewalBatch(job.jobId) && batch.readsRenewalContext)
               || (bound.value == GenericBatch(job.jobId) && batch.buildsWorkflow)) then Success(N8n)
        else Failure(Conflict)
    }

    /** The batch released for a job, as the durable source says, or else what is bound here; the two may not
     *  disagree. */
    ghost predicate Released(jobId: Uuid, batchId: BatchId)
      reads this
    {
      if durable.None? then jobId in batches && batches[jobId] == batchId
      else
        && jobId in durable.value && durable.value[jobId] == batchId
        && (jobId in batches ==> batches[jobId] == batchId)
    }

    ghost predicate Disagrees(jobId: Uuid)
      reads this
    {
      durable.Some? && jobId in batches && !(jobId in durable.value && durable.value[jobId] == batches[jobId])
    }

    /** The stored batch is the job's own renewal or generic batch and lets n8n build what it promises. */
    ghost predicate Buildable(jobId: Uuid, batchId: BatchId)
      reads this
    {
      && batchId in bundles && bundles[batchId].batchId == batchId && bundles[batchId].forN8n
      && ((batchId == RenewalBatch(jobId) && bundles[batchId].readsRenewalContext)
          || (batchId == GenericBatch(jobId) && bundles[batchId].buildsWorkflow))
    }

    /** The integration of an action is n8n exactly for an integrator dispatch with a released, buildable batch. */
    ghost predicate Integrates(jobId: Uuid, kind: ActionKind, intent: Intent)
      reads this
    {
      && !Disagrees(jobId)
      && match intent
         case N8n =>
           kind == DispatchToolIntegrator && exists batchId :: Released(jobId, batchId) && Buildable(jobId, batchId)
         case NoIntegration => kind != DispatchToolIntegrator || forall batchId :: !Released(jobId, batchId)
    }

    lemma IntentIntegrates(job: Job, action: Action, role: Role)
      requires Serves(action.kind, role)
      ensures forall intent ::
        IntentFor(job, action, role) == Success(intent) <==> Integrates(job.jobId, action.kind, intent)
    {
      var bound := BatchFor(job.jobId);
      assert bound.Success? ==> forall batchId :: Released(job.jobId, batchId) <==> bound.value == Some(batchId);
      assert bound.Success? <==> !Disagrees(job.jobId);
    }

    /** Record a lease; `admitted` is the store's own judgement of the next action. */
    method RecordLease(lease: Lease, admitted: bool) returns (done: bool)
      modifies `leases
      ensures done == (admitted && lease.jobId in jobs && !IdTaken(old(Recorded(lease.jobId)), lease))
      ensures leases == if done && lease !in old(Recorded(lease.jobId))
                        then old(leases)[lease.jobId := old(Recorded(lease.jobId)) + [lease]] else old(leases)
      ensures done ==> lease in Recorded(lease.jobId)
    {
      var recorded := Recorded(lease.jobId);
      if !admitted || lease.jobId !in jobs || IdTaken(recorded, lease) {
        return false;
      }
      if lease !in recorded {
        leases := leases[lease.jobId := recorded + [lease]];
      }
      return true;
    }

    /** Select the lease for an action, or issue one; two equally new ones are refused. */
    method NextLease(need: Need) returns (result: Option<Lease>)
      ensures result == ChosenLease(base, need, Recorded(need.job.jobId))
    {
      hide Fits, IssueFor, NewestAt;
      var recorded := Recorded(need.job.jobId);
      var selection := ExactActiveLease(base, need, recorded);
      match selection {
        case Ambiguous => result := None;
        case Selected(lease) =>
          ghost var k :| 0 <= k < |recorded| && NewestAt(base, need, recorded, k) && recorded[k] == lease;
          NewestIsChosen(base, need, recorded, k);
          result := Some(lease);
        case NoMatch => result := IssueFor(base, need);
      }
    }

    /** What an ensure answers: the chosen lease, if role, attempt, integration and job match and the store
     *  admits and records it. */
    ghost function EnsureAnswer(job: Job, action: Action, role: Role, now: Time, admitted: bool): Option<Lease>
      reads this
    {
      if !Serves(action.kind, role) || action.attempt < 1 || job.jobId !in jobs || jobs[job.jobId] != job
         || !(exists intent :: Integrates(job.jobId, action.kind, intent)) then None
      else
        var intent :| Integrates(job.jobId, action.kind, intent);
        var need := Need(job, action, role, intent, namespace, now);
        var recorded := Recorded(job.jobId);
        var chosen := ChosenLease(base, need, recorded);
        if chosen.Some? && admitted
           && forall k :: 0 <= k < |recorded| && recorded[k].leaseId == chosen.value.leaseId ==>
                recorded[k] == chosen.value
        then chosen
        else None
    }

    /** What a use answers: the pending lease, recovery first, if it was ensured for this very job and is
     *  still good. */
    ghost function ActiveAnswer(job: Job, role: Role, attempt: int, now: Time, admitted: bool): Option<Lease>
      reads this
    {
      var key := Key(job.jobId, role, attempt);
      if key in recoveries then
        var (boundJob, lease, authorization) := recoveries[key];
        if boundJob == job && RecoversNow(authorization, job, attempt, now) && Identifies(authorization, lease) then
          Some(lease)
        else None
      else if key in authorized then
        var (boundJob, lease) := authorized[key];
        if boundJob == job && admitted && lease.jobId in jobs && !IdTaken(Recorded(lease.jobId), lease)
           && ValidLease(base, lease, job, role, attempt, now) then Some(lease)
        else None
      else None
    }

    /** The recorded lease that a recovery may take up again. */
    ghost predicate RecoverableAt(
      job: Job, action: Action, role: Role, now: Time, authorization: RetryAuthorization, k: nat)
      reads this
    {
      && k < |Recorded(job.jobId)|
      && OnlyMatch(Recorded(job.jobId), authorization, k)
      && Recorded(job.jobId)[k].expiresAt <= now
      && ValidLease(base, Recorded(job.jobId)[k], job, role, action.attempt, Recorded(job.jobId)[k].issuedAt)
    }

    /** The authorization and the action agree on a tool integrator's attempt. */
    ghost predicate MayRecover(job: Job, action: Action, role: Role, now: Time, authorization: RetryAuthorization) {
      role == ToolIntegrator && RoleOf(action.kind) == Some(role) && action.attempt >= 1
      && RecoversNow(authorization, job, action.attempt, now)
    }

    /** Ensure the lease of the next action: reuse the unique newest fitting one, or issue a new one. */
    method EnsureFor(job: Job, action: Action, role: Role, now: Time, admitted: bool) returns (result: Option<Lease>)
      requires Valid()
      modifies this
      ensures Valid() && jobs == old(jobs) && batches == old(batches)
      ensures bundles == old(bundles) && durable == old(durable)
      ensures recoveries == old(recoveries)
      ensures result == old(EnsureAnswer(job, action, role, now, admitted))
      ensures result.None? ==> log == old(log) && authorized == old(authorized) && leases == old(leases)
      ensures result.Some? ==>
        && log == old(log) + [Ensured(Key(job.jobId, role, action.attempt), result.value, false)]
        && authorized == old(authorized)[Key(job.jobId, role, action.attempt) := (job, result.value)]
        && ValidLease(base, result.value, job, role, action.attempt, now)
        && result.value in Recorded(job.jobId)
        && Serves(action.kind, role) && result.value.role == role
        && old(Integrates(job.jobId, action.kind, result.value.intent))
        && Chosen(base, Need(job, action, role, result.value.intent, namespace, now), old(Recorded(job.jobId)),
                  result.value)
    {
      hide ValidLease, Chosen, ChosenLease, Tracked, RoleOf, Serves, Integrates;
      RoleServes(action.kind, role);
      if Serves(action.kind, role) {
        IntentIntegrates(job, action, role);
      }
      if RoleOf(action.kind) != Some(role) || action.attempt < 1 {
        return None;
      }
      var intent := IntentFor(job, action, role);
      if intent.Failure? || job.jobId !in jobs || jobs[job.jobId] != job {
        return None;
      }
      var need := Need(job, action, role, intent.value, namespace, now);
      var lease := NextLease(need);
      if lease.None? {
        return None;
      }
      ChosenIsValid(base, need, Recorded(job.jobId), lease.value);
      var recorded := RecordLease(lease.value, admitted);
      if !recorded || lease.value !in Recorded(job.jobId)
         || !ValidLease(base, lease.value, job, role, action.attempt, now) {
        return None;
      }
      var key := Key(job.jobId, role, action.attempt);
      ghost var unused := RetryAuthorization(0, 0, 0, 0, OtherId(0), Elsewhere(0), 0);
      TrackEnsured(log, authorized, recoveries, key, job, lease.value, unused);
      authorized := authorized[key := (job, lease.value)];
      log := log + [Ensured(key, lease.value, false)];
      return lease;
    }

    /** Hand the ensured lease to its dispatcher, once; a pending recovery goes first. */
    method Active(job: Job, role: Role, attempt: int, now: Time, admitted: bool) returns (result: Option<Lease>)
      requires Valid()
      modifies this
      ensures Valid() && jobs == old(jobs) && batches == old(batches)
      ensures bundles == old(bundles) && durable == old(durable)
      ensures var key := Key(job.jobId, role, attempt);
        var first := key in old(recoveries);
        && recoveries == old(recoveries) - {key}
        && authorized == (if first then old(authorized) else old(authorized) - {key})
        && log == (if first || key in old(authorized) then old(log) + [Popped(key, first, result)] else old(log))
        && result == old(ActiveAnswer(job, role, attempt, now, admitted))
        && (result.Some? ==> Pending(old(log), key, first) == result)
        && (first ==> leases == old(leases))
        && (result.Some? && !first ==> result.value in Recorded(result.value.jobId))
    {
      hide Tracked, ValidLease, RecoversNow, Identifies, IdTaken;
      PendingHeld(log, authorized, recoveries, Key(job.jobId, role, attempt));
      var key := Key(job.jobId, role, attempt);
      result := None;
      if key in recoveries {
        var (boundJob, lease, authorization) := recoveries[key];
        recoveries := recoveries - {key};
        if boundJob == job && RecoversNow(authorization, job, attempt, now) && Identifies(authorization, lease) {
          result := Some(lease);
        }
        TrackPopped(log, old(authorized), old(recoveries), key, result);
        log := log + [Popped(key, true, result)];
        return;
      }
      assert recoveries - {key} == recoveries;
      if key !in authorized {
        assert authorized - {key} == authorized;
        return;
      }
      var (boundJob, lease) := authorized[key];
      authorized := authorized - {key};
      if boundJob == job {
        var recorded := RecordLease(lease, admitted);
        if recorded && ValidLease(base, lease, job, role, attempt, now) {
          result := Some(lease);
        }
      }
      TrackPopped(log, old(authorized), old(recoveries), key, result);
      log := log + [Popped(key, false, result)];
    }

    /** Recover the one original, expired lease that a successor authorization names. */
    method EnsureRecoveryFor(job: Job, action: Action, role: Role, now: Time, authorization: RetryAuthorization)
      returns (result: Option<Lease>)
      requires Valid()
      modifies this
      ensures Valid() && jobs == old(jobs) && batches == old(batches)
      ensures bundles == old(bundles) && durable == old(durable)
      ensures authorized == old(authorized) && leases == old(leases)
      ensures result.None? ==> log == old(log) && recoveries == old(recoveries)
      ensures result.Some? <==>
        && MayRecover(job, action, role, now, authorization)
        && exists k: nat :: RecoverableAt(job, action, role, now, authorization, k)
      ensures result.Some? ==>
        && log == old(log) + [Ensured(Key(job.jobId, role, action.attempt), result.value, true)]
        && recoveries == old(recoveries)[Key(job.jobId, role, action.attempt) := (job, result.value, authorization)]
        && exists k: nat ::
             RecoverableAt(job, action, role, now, authorization, k) && Recorded(job.jobId)[k] == result.value
    {
      hide Tracked, ValidLease, RecoversNow, Identifies;
      if RoleOf(action.kind) != Some(role) || role != ToolIntegrator || action.attempt < 1
         || !RecoversNow(authorization, job, action.attempt, now) {
        return None;
      }
      var recorded := Recorded(job.jobId);
      var matches: seq<nat> := [];
      for i := 0 to |recorded|
        invariant forall k :: k in matches <==> 0 <= k < i && Identifies(authorization, recorded[k])
        invariant Increasing(matches) && forall j :: 0 <= j < |matches| ==> matches[j] < i
      {
        if Identifies(authorization, recorded[i]) {
          matches := matches + [i];
        }
      }
      if |matches| != 1 {
        NoOnlyMatch(recorded, authorization, matches);
        return None;
      }
      var at := matches[0];
      assert at in matches;
      assert forall k :: k in matches ==> k == at;
      assert OnlyMatch(recorded, authorization, at);
      var lease := recorded[at];
      if lease.expiresAt > now || !ValidLease(base, lease, job, role, action.attempt, lease.issuedAt) {
        return None;
      }
      var key := Key(job.jobId, role, action.attempt);
      TrackEnsured(log, authorized, recoveries, key, job, lease, authorization);
      recoveries := recoveries[key := (job, lease, authorization)];
      log := log + [Ensured(key, lease, true)];
      assert Recorded(job.jobId) == recorded && RecoverableAt(job, action, role, now, authorization, at);
      return Some(lease);
    }

    /** Bind the generic batch derived from a job; a durable source must already say so. */
    method RegisterN8nWorkBatch(job: Job, batchId: BatchId) returns (done: bool)
      requires Valid()
      modifies `batches
      ensures Valid()
      ensures done == (batchId == GenericBatch(job.jobId)
                       && if durable.Some? then job.jobId in durable.value && durable.value[job.jobId] == batchId
                          else job.jobId in old(batches) ==> old(batches)[job.jobId] == batchId)
      ensures batches == if done && durable.None? then old(batches)[job.jobId := batchId] else old(batches)
    {
      if batchId != GenericBatch(job.jobId) {
        return false;
      }
      if durable.Some? {
        return job.jobId in durable.value && durable.value[job.jobId] == batchId;
      }
      if job.jobId in batches && batches[job.jobId] != batchId {
        return false;
      }
      batches := batches[job.jobId := batchId];
      return true;
    }
  }

  /** A fitting or new lease leaves a warden its minimum time. */
  lemma WardenHasTime(base: Profile -> set<nat>, need: Need, lease: Lease)
    ensures Fits(base, need, lease) && need.role == QualityWarden ==> lease.expiresAt - need.now >= WARDEN_MINIMUM
    ensures Some(lease) == IssueFor(base, need) ==>
      lease.expiresAt - need.now >= WARDEN_MINIMUM
  {
  }
}
