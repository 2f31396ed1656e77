/** The host of the initial transition as its controller observes it: the legacy, the candidate, the job containers
    and the database; what one read can be asked; and what must have been read before an event is written. */
module InitialTransitionWorld {
  import opened Outcomes
  import opened Roles
  import opened ReconciliationDelta
  import opened InitialTransitionJournal

  /** A pending migration, named by its position. */
  datatype Migration = Migration(concurrent: bool, indexes: set<nat>)

  /** What the claims about a site rest on: what is configured, and the named assumptions. `kept`: nobody else
      creates, starts, changes or removes the job containers. `soleWriter`: only a running migration job writes
      the ledger and the indexes. */
  datatype Terms = Terms(reconcile: Option<Case>, pending: seq<Migration>, origin: set<int>, kept: bool,
      soleWriter: bool) {

    function TheCase(): Case {
      if reconcile.Some? then reconcile.value else Case(0, 0, 0, 0, Detail(None, 0))
    }
  }

  /** `known` says that identity, labels and gates are the journaled ones. */
  datatype Process = Process(known: bool, running: bool, policy: Policy, started: nat, restarts: nat, exit: int)

  datatype Status = Created | Running | Exited

  /** A job container; `matches` says that image, arguments, environment and network are the wanted ones. */
  datatype Container = Container(id: nat, matches: bool, status: Status, exit: int)

  datatype Database = Database(ledger: set<int>, invalid: set<nat>, indexes: set<nat>)

  /** `scoped`: only expected processes on the networks, the database and Redis; the other flags stand for the
      checks and probes of the same name. */
  datatype World = World(owned: bool, legacy: PerRole<Process>, candidate: PerRole<Process>, project: set<Role>,
                         jobs: map<JobName, Container>, db: Database, builds: bool, sessions: set<JobName>,
                         data: Data, redis: int, scoped: bool, settledExpected: bool, candidateExpected: bool,
                         preview: bool, backfill: bool,
                         preflight: bool, schema: bool, ready: bool)

  ghost predicate Active(w: World, n: JobName) {
    n in w.jobs && !w.jobs[n].status.Exited?
  }

  predicate MigrationRunning(w: World) {
    exists n <- w.jobs :: n.MigrationJob? && w.jobs[n].status.Running?
  }

  /** The candidate's project has every role. */
  predicate WholeCrew(w: World) {
    forall r: Role :: r in w.project
  }

  ghost predicate NoneRuns(w: World) {
    forall n <- w.jobs :: n.MigrationJob? ==> !w.jobs[n].status.Running?
  }

  // -- judgements on one read --------------------------------------------------------------------

  function VerifyContainedExit(item: Identity, p: Process): (o: Outcome<Code>)
    ensures !o.Killed? && (o.Refused? ==> Plain(o.code))
    ensures o.Pass? <==>
              !p.running && p.policy == No && p.exit == 0 && p.started == item.started && p.restarts == item.restarts
  {
    if p.restarts != item.restarts || p.started != item.started then Refused(RestartedAfterSignal)
    else if p.policy != No then Refused(PolicyNotPersisted)
    else if p.running then Refused(StillRunning)
    else if p.exit != 0 then Refused(UngracefulExit)
    else Pass
  }

  /** The execution a resume started itself. */
  predicate OurStart(item: Identity, p: Process) {
    p.running && p.started != item.started && p.restarts == 0 && p.policy == item.policy
  }

  function IdentityOf(p: Process): Identity {
    Identity(p.policy, p.started, p.restarts)
  }

  /** The role stands as the journal says: back on purpose, coming back, cleanly exited, or not yet exited. */
  ghost predicate Stands(v: View, item: Identity, p: Process, r: Role) {
    && p.known
    && if ResumeRole(r) in v.legacy.done then
         p.running && p.started == v.legacy.done[ResumeRole(r)] && p.restarts == 0 && p.policy == item.policy
       else if ResumeRole(r) in v.legacy.intents then true
       else
         && p.started == item.started && p.restarts == item.restarts
         && if Exit(r) in v.legacy.done then !p.running && p.policy == No && p.exit == 0
            else if PolicyNo(r) in v.legacy.done then p.policy == No
            else p.policy == item.policy || (p.policy == No && PolicyNo(r) in v.legacy.intents)
  }

  function RevalidateRole(v: View, item: Identity, p: Process, r: Role): (o: Outcome<Code>)
    ensures !o.Killed? && (o.Refused? ==> Plain(o.code))
    ensures o.Pass? <==> Stands(v, item, p, r)
  {
    if !p.known then Refused(LegacyIdentityChanged)
    else if ResumeRole(r) in v.legacy.done then
      Require(p.running && p.started == v.legacy.done[ResumeRole(r)] && p.restarts == 0 && p.policy == item.policy,
              LegacyResumedStateChanged)
    else if ResumeRole(r) in v.legacy.intents then Pass
    else if Exit(r) in v.legacy.done then VerifyContainedExit(item, p)
    else
      var original := if PolicyNo(r) in v.legacy.intents then {item.policy, No} else {item.policy};
      var allowed := if PolicyNo(r) in v.legacy.done then {No} else original;
      Require(p.restarts == item.restarts && p.started == item.started && p.policy in allowed, LegacyStateChanged)
  }

  datatype Evidence = NoExecution | RunningAgain | ExitedAfterStart | Inconsistent

  /** What one role's container says about a resume. */
  function ExecutionEvidence(v: View, item: Identity, p: Process, r: Role): (e: Evidence)
    ensures ExplainedAs(v, item, p, r, e)
  {
    if ResumeRole(r) in v.legacy.done then RunningAgain
    else if p.running then if OurStart(item, p) then RunningAgain else Inconsistent
    else if p.started != item.started then ExitedAfterStart
    else NoExecution
  }

  /** A resumed role, or one that runs an execution no resume but this one can have started, runs again; any other
      that runs is inconsistent, and one that does not was started since it was observed or was not. */
  ghost predicate ExplainedAs(v: View, item: Identity, p: Process, r: Role, e: Evidence) {
    var ours := p.running && p.started != item.started && p.restarts == 0 && p.policy == item.policy;
    && (e == RunningAgain <==> ResumeRole(r) in v.legacy.done || ours)
    && (e == Inconsistent <==> ResumeRole(r) !in v.legacy.done && p.running && !ours)
    && (e == ExitedAfterStart <==> ResumeRole(r) !in v.legacy.done && !p.running && p.started != item.started)
  }

  /** A created container with the policy its epoch gave it. */
  predicate AsCreated(v: View, p: Process, r: Role) {
    p.known && p.policy == if r in v.candidate.policies then Always else No
  }

  /** Nothing of the failed attempt remains. */
  ghost predicate CleanRetry(t: Terms, w: World, i: Index) {
    && i !in w.db.ledger && w.db.invalid == {} && !MigrationRunning(w)
    && (i < |t.pending| ==> w.db.indexes * t.pending[i].indexes == {})
  }

  /** The names of the first n pending migrations. */
  function Positions(n: nat): (names: set<int>)
    ensures forall x :: x in names <==> 0 <= x < n
  {
    if n == 0 then {} else Positions(n - 1) + {n - 1}
  }

  // -- what one read can be asked ----------------------------------------------------------------------

  datatype Aspect =
    | Owned | Scoped | Expected | CandidateExpected | PreviewOk | BackfillDone | PreflightOk | SchemaOk | ReadyOk
    | HealthyLegacy(role: Role, item: Identity) | LegacyPolicyIs(role: Role, policy: Policy) | LegacyRuns(role: Role)
    | LegacyStopped(role: Role) | ContainedExit(role: Role, item: Identity) | Revalid(view: View, role: Role)
    | Resumed(role: Role, item: Identity)
    | Explained(view: View, role: Role, evidence: Evidence)
    | DataIs(data: Data) | RedisIs(redis: int) | NoDuplicate
    | LedgerIs(ledger: set<int>) | Absent(index: Index) | NoInvalid | NoIndexes(indexes: set<nat>) | NoBuilds
    | NoSessions | NoSession(job: JobName) | NoMigrationJob | ApplyIdle
    | Present(index: Index) | SomeInvalid | SomeIndex(indexes: set<nat>)
    | NoProject | WholeProject | CandidateKnown(role: Role) | CreatedAs(view: View, role: Role)
    | RunsOn(role: Role, started: nat) | Restarts(role: Role, policy: Policy) | CandidateStopped(role: Role)
    | CandidateRuns(role: Role)

  /** What was read, in the fields of the host. */
  ghost predicate Shows(w: World, a: Aspect) {
    match a
    case Owned => w.owned
    case Scoped => w.scoped
    case Expected => w.settledExpected
    case CandidateExpected => w.candidateExpected
    case PreviewOk => w.preview
    case BackfillDone => w.backfill
    case PreflightOk => w.preflight
    case SchemaOk => w.schema
    case ReadyOk => w.ready
    case HealthyLegacy(r, item) =>
      var p := w.legacy.At(r);
      p.known && p.running && p.policy == item.policy == Always && p.started == item.started
      && p.restarts == item.restarts
    case LegacyPolicyIs(r, policy) => w.legacy.At(r).policy == policy
    case LegacyRuns(r) => w.legacy.At(r).running
    case LegacyStopped(r) => !w.legacy.At(r).running
    case ContainedExit(r, item) =>
      var p := w.legacy.At(r);
      !p.running && p.policy == No && p.exit == 0 && p.started == item.started && p.restarts == item.restarts
    case Revalid(v, r) =>
      v.legacy.observed.Some? && Stands(v, v.legacy.observed.value.At(r), w.legacy.At(r), r)
    case Resumed(r, item) =>
      var p := w.legacy.At(r);
      p.running && p.started != item.started && p.restarts == 0 && p.policy == item.policy
    case Explained(v, r, e) =>
      v.legacy.observed.Some? && ExplainedAs(v, v.legacy.observed.value.At(r), w.legacy.At(r), r, e)
    case DataIs(d) => w.data == d
    case RedisIs(x) => w.redis == x
    case NoDuplicate => LinkedOnce(w.data)
    case LedgerIs(ledger) => w.db.ledger == ledger
    case Absent(i) => i !in w.db.ledger
    case NoInvalid => w.db.invalid == {}
    case NoIndexes(x) => w.db.indexes * x == {}
    case NoBuilds => !w.builds
    case NoSessions => w.sessions == {}
    case NoSession(n) => n !in w.sessions
    case NoMigrationJob => NoneRuns(w)
    case ApplyIdle => ApplyJob !in w.jobs || w.jobs[ApplyJob].status.Created?
    case Present(i) => i in w.db.ledger
    case SomeInvalid => w.db.invalid != {}
    case SomeIndex(x) => w.db.indexes * x != {}
    case NoProject => w.project == {}
    case WholeProject =>
      Backend in w.project && Cron in w.project && Broadcast in w.project && QueueWorker in w.project
    case CandidateKnown(r) => w.candidate.At(r).known
    case CreatedAs(v, r) =>
      w.candidate.At(r).known && w.candidate.At(r).policy == if r in v.candidate.policies then Always else No
    case RunsOn(r, started) =>
      w.candidate.At(r).running && w.candidate.At(r).restarts == 0 && w.candidate.At(r).started == started
    case Restarts(r, policy) => w.candidate.At(r).policy == policy
    case CandidateStopped(r) => !w.candidate.At(r).running
    case CandidateRuns(r) => w.candidate.At(r).running
  }

  /** The check a read is put to. */
  predicate Check(w: World, a: Aspect) {
    match a
    case Owned => w.owned
    case Scoped => w.scoped
    case Expected => w.settledExpected
    case CandidateExpected => w.candidateExpected
    case PreviewOk => w.preview
    case BackfillDone => w.backfill
    case PreflightOk => w.preflight
    case SchemaOk => w.schema
    case ReadyOk => w.ready
    case HealthyLegacy(r, item) =>
      var p := w.legacy.At(r);
      p.known && p.running && p.policy == Always && IdentityOf(p) == item
    case LegacyPolicyIs(r, policy) => w.legacy.At(r).policy == policy
    case LegacyRuns(r) => w.legacy.At(r).running
    case LegacyStopped(r) => !w.legacy.At(r).running
    case ContainedExit(r, item) => VerifyContainedExit(item, w.legacy.At(r)).Pass?
    case Revalid(v, r) =>
      v.legacy.observed.Some? && RevalidateRole(v, v.legacy.observed.value.At(r), w.legacy.At(r), r).Pass?
    case Resumed(r, item) => OurStart(item, w.legacy.At(r))
    case Explained(v, r, e) =>
      v.legacy.observed.Some? && ExecutionEvidence(v, v.legacy.observed.value.At(r), w.legacy.At(r), r) == e
    case DataIs(d) => w.data == d
    case RedisIs(x) => w.redis == x
    case NoDuplicate => !Duplicate(w.data)
    case LedgerIs(ledger) => w.db.ledger == ledger
    case Absent(i) => i !in w.db.ledger
    case NoInvalid => w.db.invalid == {}
    case NoIndexes(x) => w.db.indexes * x == {}
    case NoBuilds => !w.builds
    case NoSessions => w.sessions == {}
    case NoSession(n) => n !in w.sessions
    case NoMigrationJob => !MigrationRunning(w)
    case ApplyIdle => ApplyJob !in w.jobs || w.jobs[ApplyJob].status.Created?
    case Present(i) => i in w.db.ledger
    case SomeInvalid => w.db.invalid != {}
    case SomeIndex(x) => w.db.indexes * x != {}
    case NoProject => w.project == {}
    case WholeProject => WholeCrew(w)
    case CandidateKnown(r) => w.candidate.At(r).known
    case CreatedAs(v, r) => AsCreated(v, w.candidate.At(r), r)
    case RunsOn(r, started) =>
      w.candidate.At(r).running && w.candidate.At(r).restarts == 0 && w.candidate.At(r).started == started
    case Restarts(r, policy) => w.candidate.At(r).policy == policy
    case CandidateStopped(r) => !w.candidate.At(r).running
    case CandidateRuns(r) => w.candidate.At(r).running
  }

  lemma EvidenceIs(v: View, item: Identity, p: Process, r: Role, e: Evidence)
    ensures ExecutionEvidence(v, item, p, r) == e <==> ExplainedAs(v, item, p, r, e)
  {
  }

  lemma CrewIs(w: World)
    ensures WholeCrew(w) <==>
              Backend in w.project && Cron in w.project && Broadcast in w.project && QueueWorker in w.project
  {
    if Backend in w.project && Cron in w.project && Broadcast in w.project && QueueWorker in w.project {
      forall r: Role
        ensures r in w.project
      {
        assert r == Backend || r == Cron || r == Broadcast || r == QueueWorker;
      }
    }
  }

  lemma NoneRunsIs(w: World)
    ensures MigrationRunning(w) <==> !NoneRuns(w)
  {
  }

  /** A check passes exactly for what it is to show. */
  lemma CheckIs(w: World, a: Aspect)
    ensures Check(w, a) <==> Shows(w, a)
  {
    hide RevalidateRole, VerifyContainedExit, ExecutionEvidence, ExplainedAs, Stands, Duplicate, LinkedOnce, OurStart,
      MigrationRunning, NoneRuns, WholeCrew, PerRole.At, IdentityOf;
    match a
    case Owned => assert Check(w, Owned) <==> Shows(w, Owned);
    case Scoped => assert Check(w, Scoped) <==> Shows(w, Scoped);
    case Expected => assert Check(w, Expected) <==> Shows(w, Expected);
    case CandidateExpected => assert Check(w, CandidateExpected) <==> Shows(w, CandidateExpected);
    case PreviewOk => assert Check(w, PreviewOk) <==> Shows(w, PreviewOk);
    case BackfillDone => assert Check(w, BackfillDone) <==> Shows(w, BackfillDone);
    case PreflightOk => assert Check(w, PreflightOk) <==> Shows(w, PreflightOk);
    case SchemaOk => assert Check(w, SchemaOk) <==> Shows(w, SchemaOk);
    case ReadyOk => assert Check(w, ReadyOk) <==> Shows(w, ReadyOk);
    case HealthyLegacy(r, item) =>
      IdentityIs(w.legacy.At(r), item);
      assert Check(w, HealthyLegacy(r, item)) <==> Shows(w, HealthyLegacy(r, item));
    case LegacyPolicyIs(r, p) => assert Check(w, LegacyPolicyIs(r, p)) <==> Shows(w, LegacyPolicyIs(r, p));
    case LegacyRuns(r) => assert Check(w, LegacyRuns(r)) <==> Shows(w, LegacyRuns(r));
    case LegacyStopped(r) => assert Check(w, LegacyStopped(r)) <==> Shows(w, LegacyStopped(r));
    case ContainedExit(r, item) => assert Check(w, ContainedExit(r, item)) <==> Shows(w, ContainedExit(r, item));
    case Revalid(v, r) => assert Check(w, Revalid(v, r)) <==> Shows(w, Revalid(v, r));
    case Resumed(r, item) =>
      OurStartIs(item, w.legacy.At(r));
      assert Check(w, Resumed(r, item)) <==> Shows(w, Resumed(r, item));
    case Explained(v, r, e) =>
      if v.legacy.observed.Some? { EvidenceIs(v, v.legacy.observed.value.At(r), w.legacy.At(r), r, e); }
      assert Check(w, Explained(v, r, e)) <==> Shows(w, Explained(v, r, e));
    case DataIs(d) => assert Check(w, DataIs(d)) <==> Shows(w, DataIs(d));
    case RedisIs(x) => assert Check(w, RedisIs(x)) <==> Shows(w, RedisIs(x));
    case NoDuplicate =>
      DuplicateIs(w.data);
      assert Check(w, NoDuplicate) <==> Shows(w, NoDuplicate);
    case LedgerIs(l) => assert Check(w, LedgerIs(l)) <==> Shows(w, LedgerIs(l));
    case Absent(i) => assert Check(w, Absent(i)) <==> Shows(w, Absent(i));
    case NoInvalid => assert Check(w, NoInvalid) <==> Shows(w, NoInvalid);
    case NoIndexes(x) => assert Check(w, NoIndexes(x)) <==> Shows(w, NoIndexes(x));
    case NoBuilds => assert Check(w, NoBuilds) <==> Shows(w, NoBuilds);
    case NoSessions => assert Check(w, NoSessions) <==> Shows(w, NoSessions);
    case NoSession(n) => assert Check(w, NoSession(n)) <==> Shows(w, NoSession(n));
    case NoMigrationJob =>
      NoneRunsIs(w);
      assert Check(w, NoMigrationJob) <==> Shows(w, NoMigrationJob);
    case ApplyIdle => assert Check(w, ApplyIdle) <==> Shows(w, ApplyIdle);
    case Present(i) => assert Check(w, Present(i)) <==> Shows(w, Present(i));
    case SomeInvalid => assert Check(w, SomeInvalid) <==> Shows(w, SomeInvalid);
    case SomeIndex(x) => assert Check(w, SomeIndex(x)) <==> Shows(w, SomeIndex(x));
    case NoProject => assert Check(w, NoProject) <==> Shows(w, NoProject);
    case WholeProject =>
      CrewIs(w);
      assert Check(w, WholeProject) <==> Shows(w, WholeProject);
    case CandidateKnown(r) => assert Check(w, CandidateKnown(r)) <==> Shows(w, CandidateKnown(r));
    case CreatedAs(v, r) => assert Check(w, CreatedAs(v, r)) <==> Shows(w, CreatedAs(v, r));
    case RunsOn(r, s) => assert Check(w, RunsOn(r, s)) <==> Shows(w, RunsOn(r, s));
    case Restarts(r, p) => assert Check(w, Restarts(r, p)) <==> Shows(w, Restarts(r, p));
    case CandidateStopped(r) => assert Check(w, CandidateStopped(r)) <==> Shows(w, CandidateStopped(r));
    case CandidateRuns(r) => assert Check(w, CandidateRuns(r)) <==> Shows(w, CandidateRuns(r));
  }

  lemma IdentityIs(p: Process, item: Identity)
    ensures IdentityOf(p) == item <==>
              p.policy == item.policy && p.started == item.started && p.restarts == item.restarts
  {
  }

  lemma OurStartIs(item: Identity, p: Process)
    ensures OurStart(item, p) <==>
              p.running && p.started != item.started && p.restarts == 0 && p.policy == item.policy
  {
  }

  /** The worlds a process went through from one event to the next, each as a read or an effect left it; the last
      is the one the event is written over. The receipt of the reconciliation, written in the middle of its
      proof, does not end a course. */
  type Course = seq<World>

  ghost predicate Standing(course: Course, w: World) {
    course != [] && course[|course| - 1] == w
  }

  /** Some read of the course showed this. */
  ghost predicate Seen(course: Course, a: Aspect) {
    exists k :: 0 <= k < |course| && Shows(course[k], a)
  }

  ghost predicate SeenTwice(course: Course, a: Aspect) {
    exists i, k :: 0 <= i < k < |course| && Shows(course[i], a) && Shows(course[k], a)
  }

  /** The course went on, and what was seen in it stays seen. */
  ghost predicate Extends(course: Course, course': Course) {
    && course <= course'
    && (forall a :: Seen(course, a) ==> Seen(course', a))
    && forall a :: SeenTwice(course, a) ==> SeenTwice(course', a)
  }

  lemma GoesOn(course: Course, course': Course)
    requires course <= course'
    ensures Extends(course, course')
  {
    hide Shows;
    forall a | Seen(course, a)
      ensures Seen(course', a)
    {
      var k :| 0 <= k < |course| && Shows(course[k], a);
      assert course'[k] == course[k];
    }
    forall a | SeenTwice(course, a)
      ensures SeenTwice(course', a)
    {
      var i, k :| 0 <= i < k < |course| && Shows(course[i], a) && Shows(course[k], a);
      assert course'[i] == course[i] && course'[k] == course[k];
    }
  }

  lemma LastIsSeen(course: Course, w: World, a: Aspect)
    requires Standing(course, w) && Shows(w, a)
    ensures Seen(course, a)
  {
    assert Shows(course[|course| - 1], a);
  }

  lemma SeenAgain(course: Course, course': Course, w: World, a: Aspect)
    requires Seen(course, a) && course <= course' && |course| < |course'| && Standing(course', w) && Shows(w, a)
    ensures SeenTwice(course', a)
  {
    var k :| 0 <= k < |course| && Shows(course[k], a);
    assert course'[k] == course[k] && course'[|course'| - 1] == w;
  }

  // -- what must have been read before an event is written ------------------------------------------------

  /** Baseline ledger, and no trace of DDL in the database or in the journal. */
  ghost predicate UntouchedSeen(v: View, course: Course) {
    && Seen(course, LedgerIs(v.legacy.ledger)) && Seen(course, NoInvalid) && Seen(course, NoBuilds)
    && Seen(course, NoSessions) && !v.candidate.created && forall n <- v.ddl.jobs :: n.ApplyJob?
  }

  ghost predicate ContainedSeen(v: View, course: Course) {
    v.legacy.observed.Some? && forall r: Role :: Seen(course, ContainedExit(r, v.legacy.observed.value.At(r)))
  }

  /** The data and the queues are those of the last snapshot. */
  ghost predicate SnapshotSeen(v: View, course: Course) {
    && v.data.snapshot.Some?
    && Seen(course, DataIs(v.data.snapshot.value.data)) && Seen(course, RedisIs(v.data.snapshot.value.redis))
  }

  /** What is proved right before the irrevocable marker. */
  ghost predicate PreDdlSeen(v: View, course: Course) {
    UntouchedSeen(v, course) && SnapshotSeen(v, course) && Seen(course, Expected) && ContainedSeen(v, course)
    && Seen(course, Scoped)
  }

  /** Every legacy container stands as journaled, and every created candidate is the journaled one. */
  ghost predicate RevalidSeen(v: View, course: Course) {
    v.legacy.observed.Some? ==>
      && (forall r: Role :: Seen(course, Revalid(v, r)))
      && (v.candidate.created ==> forall r: Role :: Seen(course, CandidateKnown(r)))
  }

  /** All four run the execution started in this epoch. */
  ghost predicate RunningSeen(v: View, course: Course) {
    AllStarted(v) && forall r: Role :: Seen(course, RunsOn(r, v.candidate.starts[r]))
  }

  ghost predicate CreatedSeen(v: View, course: Course) {
    forall r: Role :: Seen(course, CreatedAs(v, r))
  }

  /** Every role was looked at and nothing unexplained found; until a new execution was observed, the data and the
      queues are unchanged. */
  ghost predicate EvidenceSeen(v: View, course: Course) {
    && (forall r: Role :: Seen(course, Explained(v, r, NoExecution)) || Seen(course, Explained(v, r, RunningAgain)))
    && ((exists r: Role :: Seen(course, Explained(v, r, RunningAgain)))
        || ((v.data.snapshot.None? || SnapshotSeen(v, course)) && Seen(course, Expected)))
    && Seen(course, Scoped)
  }

  /** The job ended, with exit zero. */
  ghost predicate Succeeded(w: World, n: JobName) {
    n in w.jobs && w.jobs[n].status.Exited? && w.jobs[n].exit == 0
  }

  /** The job ended, with another exit than zero. */
  ghost predicate Failed(w: World, n: JobName) {
    n in w.jobs && w.jobs[n].status.Exited? && w.jobs[n].exit != 0
  }

  /** A refusal of an attempt repeats the one the attempt already has, or its code says what was read: of the
      ledger, of the indexes, and of the exit of its job. */
  ghost predicate RefusalShown(t: Terms, v: View, w: World, course: Course, i: Index, code: Code) {
    || (RefusedNow(v, i) && v.ddl.refused[i].code == code)
    || match code
       case LedgerAhead => Seen(course, Present(i))
       case LedgerWithoutSuccess =>
         Seen(course, Present(i)) && (t.kept ==> Failed(w, MigrationJob(i, Attempt(v, i))))
       case ConcurrentIndexInvalid => Seen(course, Absent(i)) && Seen(course, SomeInvalid)
       case ConcurrentIndexPresent =>
         i < |t.pending| && Seen(course, Absent(i)) && Seen(course, SomeIndex(t.pending[i].indexes))
       case ConcurrentFailed =>
         i < |t.pending| && t.pending[i].concurrent && Seen(course, Absent(i)) && Seen(course, NoInvalid)
         && Seen(course, NoIndexes(t.pending[i].indexes))
       case MigrationFailed =>
         i < |t.pending| && !t.pending[i].concurrent && Seen(course, Absent(i))
         && (t.kept ==> Failed(w, MigrationJob(i, Attempt(v, i))))
       case ExitZeroNoLedger =>
         i < |t.pending| && !t.pending[i].concurrent && Seen(course, Absent(i))
         && (t.kept ==> Succeeded(w, MigrationJob(i, Attempt(v, i))))
       case _ => false
  }

  /** Nothing of a refused attempt was left. */
  ghost predicate RetrySeen(t: Terms, course: Course, i: Index) {
    && i < |t.pending| && Seen(course, NoInvalid) && Seen(course, NoIndexes(t.pending[i].indexes))
    && Seen(course, Absent(i)) && Seen(course, NoBuilds) && Seen(course, NoSessions) && Seen(course, NoMigrationJob)
  }

  /** What is read before the first job of an attempt. */
  ghost predicate IdleSeen(course: Course, i: Index) {
    Seen(course, Absent(i)) && Seen(course, NoSessions) && Seen(course, NoMigrationJob) && Seen(course, Scoped)
  }

  ghost predicate StageShown(t: Terms, v: View, w: World, course: Course, s: Stage) {
    match s
    case Observed => Seen(course, Scoped)
    case Contained => Seen(course, Scoped)
    case Preflighted => Seen(course, BackfillDone) && Seen(course, PreflightOk) && PreDdlSeen(v, course)
    case Migrated => w.db.ledger == v.legacy.ledger + Positions(|t.pending|)
    case SchemaVerified => Seen(course, SchemaOk)
    case CandidateReady =>
      RunningSeen(v, course) && Seen(course, ReadyOk) && Seen(course, CandidateExpected) && Seen(course, Scoped)
    case Promoted => RunningSeen(v, course)
    case LegacyResumed => RevalidSeen(v, course) && UntouchedSeen(v, course)
    case _ => true
  }

  /** What the course must show when an event is written over w, its last world. */
  ghost predicate Shown(t: Terms, v: View, w: World, course: Course, e: Event) {
    match e
    case Reached(s) => StageShown(t, v, w, course, s)
    case Identified(l, ledger) =>
      w.db.ledger == ledger && Seen(course, NoProject)
      && forall r: Role :: Seen(course, HealthyLegacy(r, l.At(r)))
    case Done(PolicyNo(r), _) => w.legacy.At(r).policy == No
    case Done(Exit(r), _) =>
      v.legacy.observed.Some? && VerifyContainedExit(v.legacy.observed.value.At(r), w.legacy.At(r)).Pass?
    case Done(ResumeRole(r), started) =>
      && v.legacy.observed.Some? && w.legacy.At(r).running && w.legacy.At(r).started == started
      && started != v.legacy.observed.value.At(r).started && w.legacy.At(r).restarts == 0
      && w.legacy.At(r).policy == v.legacy.observed.value.At(r).policy
    case Intent(ResumeRole(_)) => RevalidSeen(v, course) && UntouchedSeen(v, course)
    case ResumeIntent =>
      EvidenceSeen(v, course)
      && (t.reconcile.None? || v.data.base.None? || v.data.verified || Seen(course, ApplyIdle))
    case Decided(Resignal(r)) => Seen(course, LegacyRuns(r))
    case Decided(RetryMigration(i)) => RetrySeen(t, course, i)
    case Preview => SnapshotSeen(v, course) && Seen(course, PreviewOk)
    case Settle(s) =>
      Seen(course, Expected) && SeenTwice(course, DataIs(s.data)) && SeenTwice(course, RedisIs(s.redis))
      && Seen(course, Scoped)
    case ReconcileSkipped => Seen(course, Expected) && Seen(course, NoDuplicate)
    case ReconcileBaseline(b, redis) =>
      SnapshotSeen(v, course) && b == ScopeOf(t.TheCase(), v.data.snapshot.value.data)
      && redis == v.data.snapshot.value.redis
    case ReconcileDone => t.kept ==> Succeeded(w, ApplyJob)
    case Verified(s) =>
      && v.data.base.Some? && Matches(t.TheCase(), v.data.base.value.scope, s.data)
      && s.redis == v.data.base.value.redis
      && Seen(course, DataIs(s.data)) && Seen(course, RedisIs(s.redis)) && Seen(course, NoDuplicate)
    case DdlMarker => PreDdlSeen(v, course)
    case MigrationStarted(i, _) => IdleSeen(course, i)
    case MigrationDone(i) =>
      var n := MigrationJob(i, Attempt(v, i));
      && i in w.db.ledger && Seen(course, NoSession(n)) && Seen(course, NoBuilds)
      && (t.kept ==> Succeeded(w, n))
    case MigrationRefused(i, Some(_), code) => RefusalShown(t, v, w, course, i, code)
    case JobIntended(n) => n !in w.jobs
    case JobRecorded(n, id) => n in w.jobs && w.jobs[n].id == id && w.jobs[n].matches
    case CandidateCreated => Seen(course, WholeProject)
    case StartIntended(r) => !w.candidate.At(r).running
    case CandidateStarted(r, started) => w.candidate.At(r).started == started
    case PolicyPersisted(r) => w.candidate.At(r).policy == Always
    case Waiting(code) =>
      if code.JobActive? then exists n <- w.jobs :: w.jobs[n].status.Running?
      else w.sessions != {} || w.builds || MigrationRunning(w)
    case CandidateContained => forall r: Role :: Seen(course, Restarts(r, No)) && Seen(course, CandidateStopped(r))
    case _ => true
  }
}
