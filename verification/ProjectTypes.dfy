/**
 Rows of the project creation database and the checks the broker makes on what it is given.
 Digests are taken as injective, so a column that holds a digest holds the digested value here.
 */
module ProjectTypes {
  import opened Options

  type Id = string

  datatype ProposalStatus = Pending | Consumed | Revoked

  datatype Challenge = Challenge(token: nat, expiresAt: nat)

  datatype Proposal = Proposal(
    id: Id,
    userId: Id,
    sessionId: Id,
    projectName: string,
    teamId: Id,
    requestKey: string,
    confirmKey: Option<string>,
    challenge: Option<Challenge>,
    status: ProposalStatus,
    expiresAt: nat)

  datatype Phase =
    | Reserved | LocalPrepared | RemoteCreated | Pushed | ThreadStarted
    | Completed | FailedRetryable | ReconcileRequired

  datatype Lease = Lease(token: nat, expiresAt: nat)

  /** What the finalizer reports about the started thread, and what a grant carries. */
  datatype Evidence = Evidence(workspaceId: Id, workspaceRoot: string, managedThreadId: Id)

  datatype Operation = Operation(
    id: Id,
    proposalId: Id,
    phase: Phase,
    resumePhase: Option<Phase>,
    lease: Option<Lease>,
    failureClass: Option<string>,
    evidence: Option<Evidence>)

  datatype Grant = Grant(operationId: Id, userId: Id, evidence: Evidence, active: bool)

  /** Grants are keyed by their operation, which is unique among them. */
  datatype Db = Db(proposals: map<Id, Proposal>, operations: map<Id, Operation>, grants: map<Id, Grant>)

  const PROPOSAL_LIFETIME: nat := 600000
  const CHALLENGE_LIFETIME: nat := 120000
  const LEASE_LIFETIME: nat := 600000
  const WORKSPACE_ROOT := "/home/god/Documents/Codex Workspace"

  // ---- phases ------------------------------------------------------------------------------

  /** The phases a leased operation works in, and the only ones a retry resumes at. */
  predicate Working(phase: Phase) {
    phase == Reserved || phase == LocalPrepared || phase == RemoteCreated || phase == Pushed || phase == ThreadStarted
  }

  /** `nextExecutionPhase` */
  function NextPhase(phase: Phase): Option<Phase> {
    match phase
    case Reserved => Some(LocalPrepared)
    case LocalPrepared => Some(RemoteCreated)
    case RemoteCreated => Some(Pushed)
    case Pushed => Some(ThreadStarted)
    case ThreadStarted => Some(Completed)
    case _ => None
  }

  /** Where the operation is in its work: a failed one is where it will resume. */
  function EffectivePhase(o: Operation): Phase {
    if o.phase == FailedRetryable && o.resumePhase.Some? then o.resumePhase.value else o.phase
  }

  function Rank(phase: Phase): nat {
    match phase
    case Reserved => 0
    case LocalPrepared => 1
    case RemoteCreated => 2
    case Pushed => 3
    case ThreadStarted => 4
    case Completed => 5
    case FailedRetryable => 0
    case ReconcileRequired => 6
  }

  // ---- checks ------------------------------------------------------------------------------

  predicate Alphanumeric(c: char) {
    'A' <= c <= 'Z' || 'a' <= c <= 'z' || '0' <= c <= '9'
  }

  predicate ValidIdentifier(s: string) {
    && 1 <= |s| <= 128 && Alphanumeric(s[0])
    && forall i :: 0 <= i < |s| ==> Alphanumeric(s[i]) || s[i] in "._:@-"
  }

  predicate ValidFailureClass(s: string) {
    && 1 <= |s| <= 64 && 'a' <= s[0] <= 'z'
    && forall i :: 0 <= i < |s| ==> 'a' <= s[i] <= 'z' || '0' <= s[i] <= '9' || s[i] == '_'
  }

  predicate ValidRoot(s: string) {
    && |s| <= 512 && WORKSPACE_ROOT + "/" <= s
    && (forall i :: 0 <= i < |s| ==> s[i] != '\0')
    && !ClimbsUp(s)
  }

  /** One of the steps of the path is `..`. */
  predicate ClimbsUp(s: string) {
    exists i :: 0 <= i < |s| && ClimbsAt(s, i)
  }

  predicate ClimbsAt(s: string, i: nat) {
    i + 3 <= |s| && s[i..i + 3] == "/.." && (i + 3 == |s| || s[i + 3] == '/')
  }

  /** Joining the workspace root with a valid project name, which holds no separator. */
  function ProjectRoot(projectName: string): string {
    WORKSPACE_ROOT + "/" + projectName
  }

  predicate StoredEvidence(e: Option<Evidence>) {
    e.Some? && ValidIdentifier(e.value.workspaceId) && ValidRoot(e.value.workspaceRoot) && ValidIdentifier(e.value.managedThreadId)
  }

  predicate ValidEvidence(e: Evidence, expectedRoot: string) {
    && ValidIdentifier(e.workspaceId) && ValidRoot(e.workspaceRoot)
    && e.workspaceRoot == expectedRoot && ValidIdentifier(e.managedThreadId)
  }
}
