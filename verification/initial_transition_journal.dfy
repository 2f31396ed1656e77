/** The durable journal of the initial transition controller, and what every journal it writes satisfies. */
module InitialTransitionJournal {
  import opened Outcomes
  import opened Roles
  import opened ReconciliationDelta

  type Index = nat

  datatype Stage = Observed | Contained | Settled | Reconciled | Preflighted | DdlStarted | Migrated | SchemaVerified
                 | CandidateReady | Promoted | LegacyResumed

  /** The phases that are always recorded, in their order; `ddl-started` may be lost. */
  const ORDER := [Observed, Contained, Settled, Reconciled, Preflighted, Migrated, SchemaVerified, CandidateReady,
      Promoted]

  function Rank(s: Stage): nat {
    match s
    case Observed => 0 case Contained => 1 case Settled => 2 case Reconciled => 3 case Preflighted => 4
    case Migrated => 5 case SchemaVerified => 6 case CandidateReady => 7 case Promoted => 8
    case DdlStarted => 9 case LegacyResumed => 10
  }

  datatype Policy = Always | No | Other

  /** What identifies the execution of a legacy container before anything was done to it. */
  datatype Identity = Identity(policy: Policy, started: nat, restarts: nat)

  datatype LegacyStep = PolicyNo(role: Role) | Signal(role: Role) | Exit(role: Role) | ResumeRole(role: Role)

  datatype JobName = MigrationJob(index: Index, attempt: nat) | ApplyJob

  datatype Decision = Resignal(role: Role) | RetryMigration(index: Index) | RetryCandidate

  datatype Code =
    | PortFailed | JournalWrite | LegacyResumedTerminal | LegacyResumeInProgress | LegacyStateChanged
    | LegacyIdentityChanged | Scope
    | LegacyNotRunning | PolicyNotPersisted | SignalAmbiguous | GracefulTimeout | RestartedAfterSignal
    | StillRunning | UngracefulExit | ExpectationMismatch | UnstableAfterDrain
    | DuplicateWithoutReconciliation | WriterAfterSettle | ReconcilePrecondition | ReconcilePreview
    | ReconcileApply | ReconcileDelta | BackfillCandidates | PreflightFailed | LedgerNotBaseline | DdlTrace
    | LegacyNotContained | LedgerNotManifest | JobAmbiguous | JobMismatch | JobWithoutIntent | JobActive
    | LedgerAhead | SessionActive | RetryPrecondition | LedgerWithoutSuccess | ConcurrentIndexInvalid
    | ConcurrentIndexPresent | ConcurrentFailed | ExitZeroNoLedger | MigrationFailed | SchemaRefused
    | CandidateDecisionRequired | CandidateServices | CandidateIdentity | CandidateNotRunning | CandidateNotReady
    | ContainmentFailed | ContainmentTimeout | PostDdl | Confirmation | ResumeNotContained | ResumeAmbiguous
    | StartFailed | RestartedDuringResume | LegacyResumedStateChanged

  datatype Snap = Snap(data: Data, redis: int)

  datatype Event =
    | Invocation
    | Reached(stage: Stage)
    | Identified(legacy: PerRole<Identity>, ledger: set<int>)
    | Intent(step: LegacyStep)
    | Done(step: LegacyStep, started: nat)
    | ResumeIntent
    | Decided(decision: Decision)
    | Settle(snap: Snap)
    | Preview
    | ReconcileBaseline(base: Scope, redis: int)
    | ReconcileDone
    | ReconcileSkipped
    | Verified(snap: Snap)
    | DdlMarker
    | MigrationStarted(index: Index, attempt: nat)
    | MigrationRefused(index: Index, at: Option<nat>, code: Code)
    | MigrationDone(index: Index)
    | JobIntended(name: JobName)
    | JobRecorded(name: JobName, id: nat)
    | CandidateCreateIntended
    | CandidateCreated
    | StartIntended(role: Role)
    | CandidateStarted(role: Role, started: nat)
    | PolicyIntended(role: Role)
    | PolicyPersisted(role: Role)
    | ContainIntended
    | CandidateContained
    | Refusal(code: Code)
    | Waiting(code: Code)

  datatype View = View(stages: set<Stage>, legacy: LegacyView, data: DataView, ddl: DdlView, candidate: CandidateView)

  datatype LegacyView = LegacyView(observed: Option<PerRole<Identity>>, ledger: set<int>, intents: set<LegacyStep>,
                                   done: map<LegacyStep, nat>, resignals: map<Role, nat>, resuming: bool)

  datatype Base = Base(scope: Scope, redis: int)

  /** `skipped`: no reconciliation was configured, and no duplicate link found. */
  datatype DataView = DataView(snapshot: Option<Snap>, preview: bool, base: Option<Base>, applied: bool, verified: bool,
                               skipped: bool)

  datatype LastRefusal = LastRefusal(attempt: Option<nat>, code: Code)

  /** `done` counts migration receipts; `retries` counts decisions; `begun` holds the jobs of the attempts begun. */
  datatype DdlView = DdlView(marker: bool, justMarked: bool, done: nat, retries: map<Index, nat>, begun: set<JobName>,
                             refused: map<Index, LastRefusal>, jobIntents: set<JobName>, jobs: map<JobName, nat>)

  /** The candidate steps of the current epoch, which is a restarted one after a containment; creation is
      of no epoch. */
  datatype CandidateView = CandidateView(created: bool, restarted: bool, retried: bool, intended: set<Role>,
                                         starts: map<Role, nat>, policies: set<Role>, ready: bool, promoted: bool)

  const NOTHING := View({}, LegacyView(None, {}, {}, map[], map[], false),
                        DataView(None, false, None, false, false, false),
                        DdlView(false, false, 0, map[], {}, map[], {}, map[]),
                        CandidateView(false, false, false, {}, map[], {}, false, false))

  function Count<K>(m: map<K, nat>, k: K): nat {
    if k in m then m[k] else 0
  }

  function RecordLegacy(v: LegacyView, e: Event): LegacyView {
    match e
    case Identified(l, g) => v.(observed := Some(l), ledger := g)
    case Intent(s) => v.(intents := v.intents + {s})
    case Done(s, f) => v.(done := v.done[s := f])
    case ResumeIntent => v.(resuming := true)
    case Decided(Resignal(r)) => v.(resignals := v.resignals[r := Count(v.resignals, r) + 1])
    case _ => v
  }

  function RecordData(v: DataView, e: Event): DataView {
    match e
    case Settle(s) => v.(snapshot := Some(s))
    case Preview => v.(preview := true)
    case ReconcileBaseline(b, r) => v.(base := Some(Base(b, r)))
    case ReconcileDone => v.(applied := true)
    case ReconcileSkipped => v.(skipped := true)
    case Verified(s) => v.(snapshot := Some(s), verified := true)
    case _ => v
  }

  function RecordDdl(v: DdlView, e: Event): DdlView {
    var w := v.(justMarked := e.DdlMarker?);
    match e
    case DdlMarker => w.(marker := true)
    case MigrationStarted(i, a) => w.(begun := v.begun + {MigrationJob(i, a)})
    case MigrationRefused(i, a, c) => w.(refused := v.refused[i := LastRefusal(a, c)])
    case MigrationDone(_) => w.(done := v.done + 1)
    case Decided(RetryMigration(i)) => w.(retries := v.retries[i := Count(v.retries, i) + 1])
    case JobIntended(n) => w.(jobIntents := v.jobIntents + {n})
    case JobRecorded(n, id) => w.(jobs := v.jobs[n := id])
    case _ => w
  }

  function RecordCandidate(v: CandidateView, e: Event): CandidateView {
    match e
    case CandidateCreated => v.(created := true)
    case Decided(RetryCandidate) => v.(retried := true)
    case StartIntended(r) => v.(intended := v.intended + {r})
    case CandidateStarted(r, f) => v.(starts := v.starts[r := f])
    case PolicyPersisted(r) => v.(policies := v.policies + {r})
    case Reached(CandidateReady) => v.(ready := true)
    case Reached(Promoted) => v.(promoted := true)
    case CandidateContained => CandidateView(v.created, true, false, {}, map[], {}, false, false)
    case _ => v
  }

  function Record(v: View, e: Event): View {
    View(if e.Reached? then v.stages + {e.stage} else v.stages, RecordLegacy(v.legacy, e), RecordData(v.data, e),
         RecordDdl(v.ddl, e), RecordCandidate(v.candidate, e))
  }

  function ViewOf(j: seq<Event>): View {
    if j == [] then NOTHING else Record(ViewOf(j[..|j| - 1]), j[|j| - 1])
  }

  lemma ViewAppend(j: seq<Event>, e: Event)
    ensures ViewOf(j + [e]) == Record(ViewOf(j), e)
  {
    assert (j + [e])[..|j|] == j;
  }

  // -- queries -----------------------------------------------------------------------------

  predicate ReachedIn(v: View, s: Stage) {
    match s
    case CandidateReady => v.candidate.ready
    case Promoted => v.candidate.promoted
    case _ => s in v.stages
  }

  /** The attempt a migration is at: one more than the decisions to retry it. */
  function Attempt(v: View, i: Index): nat {
    1 + Count(v.ddl.retries, i)
  }

  /** The attempt a migration is at was refused. */
  predicate RefusedNow(v: View, i: Index) {
    i in v.ddl.refused && v.ddl.refused[i].attempt == Some(Attempt(v, i))
  }

  predicate Retriable(c: Code) {
    c.MigrationFailed? || c.ConcurrentIndexInvalid? || c.ConcurrentFailed? || c.ConcurrentIndexPresent?
  }

  ghost predicate AllStarted(v: View) {
    forall r: Role :: r in v.candidate.starts
  }

  ghost predicate AllPersisted(v: View) {
    forall r: Role :: r in v.candidate.policies
  }

  ghost predicate ExitsBefore(v: View, r: Role) {
    forall q: Role :: ContainRank(q) < ContainRank(r) ==> Exit(q) in v.legacy.done
  }

  ghost predicate AllResumed(v: View) {
    forall r: Role :: ResumeRole(r) in v.legacy.done
  }

  /** A candidate may be started: the schema is verified and, after a containment, a human decided. */
  ghost predicate MayStart(v: View) {
    SchemaVerified in v.stages && v.ddl.marker && v.candidate.created
    && (v.candidate.restarted ==> v.candidate.retried) && !v.candidate.promoted
  }

  // -- what the past holds when an event is written ---------------------------------------------

  ghost predicate StageAllowed(total: nat, v: View, s: Stage) {
    && !ReachedIn(v, s)
    && match s
       case Observed => !v.legacy.resuming && v.legacy.observed.Some?
       case Contained => !v.legacy.resuming && Observed in v.stages && forall r: Role :: Exit(r) in v.legacy.done
       case Settled => !v.legacy.resuming && Contained in v.stages && v.data.snapshot.Some?
       case Reconciled => !v.legacy.resuming && Settled in v.stages && (v.data.verified || v.data.skipped)
       case Preflighted => !v.legacy.resuming && Reconciled in v.stages
       case DdlStarted => v.ddl.justMarked
       case Migrated => v.ddl.marker && Preflighted in v.stages && v.ddl.done == total
       case SchemaVerified => v.ddl.marker && Migrated in v.stages
       case CandidateReady => MayStart(v) && AllStarted(v)
       case Promoted => v.ddl.marker && v.candidate.ready && AllStarted(v) && AllPersisted(v)
       case LegacyResumed => !v.ddl.marker && v.legacy.resuming && AllResumed(v)
  }

  ghost predicate LegacyIntentAllowed(v: View, s: LegacyStep) {
    match s
    case PolicyNo(r) => !v.legacy.resuming && v.legacy.observed.Some? && Contained !in v.stages
        && PolicyNo(r) !in v.legacy.done && ExitsBefore(v, r)
    case Signal(r) => !v.legacy.resuming && Contained !in v.stages && PolicyNo(r) in v.legacy.done
        && s !in v.legacy.intents && ExitsBefore(v, r)
    case Exit(_) => false
    case ResumeRole(r) => !v.ddl.marker && v.legacy.resuming && s !in v.legacy.done
  }

  ghost predicate LegacyDoneAllowed(v: View, s: LegacyStep) {
    && s !in v.legacy.done
    && match s
       case PolicyNo(r) => !v.legacy.resuming && Contained !in v.stages && s in v.legacy.intents
       case Signal(r) => !v.legacy.resuming && Contained !in v.stages && s in v.legacy.intents
       case Exit(r) => !v.legacy.resuming && Contained !in v.stages && Signal(r) in v.legacy.done && ExitsBefore(v, r)
       case ResumeRole(r) => !v.ddl.marker && v.legacy.resuming && s in v.legacy.intents
  }

  ghost predicate DecisionAllowed(v: View, d: Decision) {
    match d
    case Resignal(r) =>
      !v.legacy.resuming && Contained !in v.stages && PolicyNo(r) in v.legacy.done
      && Signal(r) in v.legacy.intents && Signal(r) !in v.legacy.done
    case RetryMigration(i) =>
      && v.ddl.marker && i == v.ddl.done && RefusedNow(v, i)
      && v.ddl.refused[i].code in {MigrationFailed, ConcurrentIndexInvalid, ConcurrentFailed, ConcurrentIndexPresent}
    case RetryCandidate => v.ddl.marker && v.candidate.restarted && !v.candidate.retried
  }

  ghost predicate JobAllowed(v: View, n: JobName) {
    match n
    case MigrationJob(i, a) => v.ddl.marker && i == v.ddl.done && a == Attempt(v, i) && !RefusedNow(v, i)
    case ApplyJob => !v.ddl.marker && v.data.base.Some?
  }

  /** Neither a wait nor a demand for a decision. */
  ghost predicate Plain(c: Code) {
    !c.JobActive? && !c.SessionActive? && !c.CandidateDecisionRequired?
  }

  /** The event may follow a journal with this view; `total` is the number of pending migrations. */
  ghost predicate Justified(c: Case, total: nat, v: View, e: Event) {
    match e
    case Invocation => true
    case Reached(s) => StageAllowed(total, v, s)
    case Identified(l, _) =>
      v.legacy.observed.None? && !v.legacy.resuming && v.stages == {} && forall r: Role :: l.At(r).policy == Always
    case Intent(s) => LegacyIntentAllowed(v, s)
    case Done(s, _) => LegacyDoneAllowed(v, s)
    case ResumeIntent => !v.ddl.marker && Contained in v.stages && !v.legacy.resuming
    case Decided(d) => DecisionAllowed(v, d)
    case Settle(_) => !v.legacy.resuming && Contained in v.stages && Settled !in v.stages
    case Preview => !v.legacy.resuming && Settled in v.stages && Reconciled !in v.stages
    case ReconcileBaseline(b, _) =>
      !v.legacy.resuming && Settled in v.stages && v.data.preview && v.data.base.None? && Precondition(c, b)
    case ReconcileDone => !v.ddl.marker && v.data.base.Some? && !v.data.applied
    case ReconcileSkipped => !v.legacy.resuming && Settled in v.stages
    case Verified(_) => !v.ddl.marker && v.data.base.Some? && v.data.applied && !v.data.verified
    case DdlMarker => !v.legacy.resuming && Preflighted in v.stages && !v.ddl.marker && !v.candidate.created
                      && forall n <- v.ddl.jobs :: n.ApplyJob?
    case MigrationStarted(i, a) => v.ddl.marker && i == v.ddl.done && a == Attempt(v, i) && !RefusedNow(v, i)
    case MigrationRefused(i, a, code) =>
      && v.ddl.marker && i == v.ddl.done && Plain(code)
      && if a.None? then !RefusedNow(v, i) else a == Some(Attempt(v, i))
    case MigrationDone(i) =>
      v.ddl.marker && i == v.ddl.done < total && MigrationJob(i, Attempt(v, i)) in v.ddl.jobs && !RefusedNow(v, i)
    case JobIntended(n) => n !in v.ddl.jobs && JobAllowed(v, n)
    case JobRecorded(n, _) => n !in v.ddl.jobs && n in v.ddl.jobIntents && JobAllowed(v, n)
    case CandidateCreateIntended => SchemaVerified in v.stages && v.ddl.marker && !v.candidate.created
    case CandidateCreated => SchemaVerified in v.stages && v.ddl.marker && !v.candidate.created
    case StartIntended(r) => MayStart(v) && r !in v.candidate.starts
    case CandidateStarted(r, _) => MayStart(v) && r !in v.candidate.starts
    case PolicyIntended(r) => v.candidate.ready && !v.candidate.promoted && r !in v.candidate.policies
    case PolicyPersisted(r) => v.candidate.ready && !v.candidate.promoted && r !in v.candidate.policies
    case ContainIntended => v.ddl.marker && v.candidate.created && !v.candidate.promoted
    case CandidateContained => v.ddl.marker && v.candidate.created && !v.candidate.promoted
    case Refusal(code) =>
      Plain(code) || (code.CandidateDecisionRequired? && v.candidate.restarted && !v.candidate.retried)
    case Waiting(code) => code.JobActive? || code.SessionActive?
  }

  ghost predicate WellFormed(c: Case, total: nat, j: seq<Event>) {
    j == [] || (WellFormed(c, total, j[..|j| - 1]) && Justified(c, total, ViewOf(j[..|j| - 1]), j[|j| - 1]))
  }

  lemma WellFormedAppend(c: Case, total: nat, j: seq<Event>, e: Event)
    ensures WellFormed(c, total, j + [e]) <==> WellFormed(c, total, j) && Justified(c, total, ViewOf(j), e)
  {
    assert (j + [e])[..|j|] == j;
  }

  // -- what follows for every journal -----------------------------------------------------------

  /** A phase is only there with every phase before it. */
  ghost predicate StagesInv(v: View) {
    forall s <- v.stages, t: Stage :: Rank(t) < Rank(s) <= 8 ==> t in v.stages
  }

  ghost predicate Facts(c: Case, total: nat, v: View) {
    && StagesInv(v)
    && (v.stages != {} ==> v.legacy.observed.Some?)
    && (v.legacy.observed.Some? ==> forall r: Role :: v.legacy.observed.value.At(r).policy == Always)
    && (v.legacy.resuming ==> Contained in v.stages && !v.ddl.marker)
    && (LegacyResumed in v.stages ==> v.legacy.resuming)
    && (v.ddl.marker ==> Preflighted in v.stages)
    && (v.ddl.justMarked ==> v.ddl.marker)
    && (Migrated in v.stages ==> v.ddl.marker && v.ddl.done == total)
    && v.ddl.done <= total
    && (forall i <- v.ddl.refused :: Plain(v.ddl.refused[i].code))
    && (v.ddl.done > 0 ==> v.ddl.marker)
    && (forall n <- v.ddl.jobIntents :: n.MigrationJob? ==>
          v.ddl.marker && n.index <= v.ddl.done && 1 <= n.attempt <= Attempt(v, n.index))
    && (forall n <- v.ddl.jobs :: n in v.ddl.jobIntents)
    && (v.candidate.created ==> SchemaVerified in v.stages && v.ddl.marker)
    && (v.candidate.restarted ==> v.candidate.created)
    && (v.candidate.intended != {} || v.candidate.starts.Keys != {} ==> (v.candidate.restarted ==> v.candidate.retried))
    && (v.candidate.ready ==> AllStarted(v) && CandidateReady in v.stages)
    && (v.candidate.policies != {} ==> v.candidate.ready)
    && (v.candidate.promoted ==> v.candidate.ready && AllPersisted(v) && Promoted in v.stages)
    && (Promoted in v.stages ==> v.candidate.promoted)
    && (CandidateReady in v.stages ==> v.candidate.created)
    && (v.data.base.Some? ==> v.data.preview && Precondition(c, v.data.base.value.scope))
    && (v.data.applied ==> v.data.base.Some?) && (v.data.verified ==> v.data.applied)
    && (Settled in v.stages ==> v.data.snapshot.Some?)
    && (Reconciled in v.stages ==> v.data.verified || v.data.skipped)
  }

  lemma StagesStep(c: Case, total: nat, v: View, e: Event)
    requires Facts(c, total, v) && Justified(c, total, v, e)
    ensures StagesInv(Record(v, e))
  {
  }

  lemma FactsStep(c: Case, total: nat, v: View, e: Event)
    requires Facts(c, total, v) && Justified(c, total, v, e)
    ensures Facts(c, total, Record(v, e))
  {
    StagesStep(c, total, v, e);
    hide StagesInv;
    assert StagesInv(v);
  }

  lemma {:induction false} FactsHold(c: Case, total: nat, j: seq<Event>)
    requires WellFormed(c, total, j)
    ensures Facts(c, total, ViewOf(j))
  {
    if j != [] {
      FactsHold(c, total, j[..|j| - 1]);
      FactsStep(c, total, ViewOf(j[..|j| - 1]), j[|j| - 1]);
    }
  }
}
