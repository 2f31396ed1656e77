/** The durable journal shared by the first-transition orchestrator and the host contract,
    and what the past must hold for each event to be written. */
module FirstTransitionJournal {
  import opened Outcomes
  import opened Roles

  type Name = nat
  type Index = nat

  datatype Migration = Migration(name: Name, concurrent: bool, indexes: set<Index>)

  /** Names already applied to the legacy database and the migrations still to apply, in order. */
  datatype Plan = Plan(baseline: set<Name>, pending: seq<Migration>) {

    ghost predicate Valid() {
      && (forall i, k :: 0 <= i < k < |pending| ==> pending[i].name != pending[k].name)
      && (forall i :: 0 <= i < |pending| ==> pending[i].name !in baseline)
    }

    /** The ledger once the first n pending migrations have been applied. */
    function LedgerAfter(n: nat): set<Name>
      requires n <= |pending|
    {
      baseline + set i | 0 <= i < n :: pending[i].name
    }

    function ConcurrentCount(n: nat): nat
      requires n <= |pending|
    {
      if n == 0 then 0 else ConcurrentCount(n - 1) + if pending[n - 1].concurrent then 1 else 0
    }
  }

  /** The configured expectation: the plan, the database identity and its baseline catalog.
      A digest of a value is represented by the value. */
  datatype Config = Config(plan: Plan, identity: int, catalog: int)

  /** A journaled quiescence, as its digest identifies it: where it stands and what it holds. */
  datatype Quiescence = Quiescence(at: nat, fingerprint: int, queue: int)

  datatype Request = Request(nonce: int, config: Config, quiescence: Quiescence)

  datatype CloneRehearsal = CloneRehearsal(verified: bool, identity: int, clusterDdl: bool, applied: nat,
                                           finalLedger: nat, concurrent: nat, sql: seq<Migration>)

  datatype Receipt = Receipt(plan: Plan, identity: int, baseline: set<Name>, catalog: int, restored: bool,
                             request: Option<Request>, id: Option<int>, clone: CloneRehearsal)

  datatype HostStep = Ingress | RestartNo(role: Role) | Term(role: Role)
                    | LegacyResume | ResumeRole(role: Role) | OpenIngress

  datatype Step = Apply(index: nat) | Layout | CreateHeld | StartBackend

  datatype Created = Created(id: nat, started: nat, restarts: nat)

  datatype FailureCode = MigrationTimeout | LedgerWithoutSuccess | MigrationFailed | ExitZeroNoLedger
                       | IndexInvalid | Undecidable

  /** The fixed codes a refusal carries. */
  datatype Code =
    // calls into the ports
    | PortFailed | WaitTimeout | JournalWrite
    // the host contract
    | UnknownWriter | IdentityChanged | ResumedStateChanged | ResumeStarted | Unobserved | IngressOpen
    | NotCleanlyContained | QueueDrift | BaselineState | IngressReopened | RestartNotDisabled | RestartReenabled
    | Restarted | ExitNotClean | UnintendedPolicy | UnintendedStop | PostDdlResumeForbidden | NotContained
    | ResumeConfirmation | ResumeNotFresh | RestartNotEnabled | IngressStillBlocked | LedgerProofRefused
    // the orchestrator
    | InputsChanged | LegacyResumeStarted | Stopped | WindowUsed | BackupAmbiguous | NotQuiescent
    | QuiescenceChanged | QuiescenceUnbounded | BackupUnbound | CloneReceiptInvalid
    | DatabaseNotReadOnly | DatabaseIdentity | LedgerDrift | DdlDrift | DdlInProgress | WritingSession | ActiveLease
    | OutcomeAmbiguous | LedgerNotPrefix | FinalLedger | MigrationRefused(failure: FailureCode)
    | CandidateMismatch | CreateAmbiguous | ProjectNotEmpty | CreateScope | ProjectChanged | StartAmbiguous | NotHeld
    | BackendNotRunning

  datatype Event =
    | HostInit(fingerprint: int, started: PerRole<nat>, restarts: PerRole<nat>)
    | HostIntent(hostStep: HostStep)
    | HostDone(hostStep: HostStep, freshStart: nat)
    | HostSettled(queue: int)
    | HostContained(fingerprint: int, queue: int)
    | DriftAccepted(settled: int, current: int)
    | HostResumed
    | TransitionInit(config: Config)
    | Baseline
    | Quiescent(fingerprint: int, queue: int)
    | BackupRequested(request: Request)
    | BackupReceived(receipt: Receipt)
    | DdlMarker(backup: int)
    | Intent(step: Step)
    | Done(step: Step)
    | CandidateCreated(crew: PerRole<Created>)
    | BackendStarted(freshStart: nat)
    | StepFailed(index: nat, code: FailureCode, definite: bool)
    | Migrated(catalog: int)
    | Failed
    | Complete

  /** What the controllers look up in the journal: the latest event of each kind and, for intents
      and receipts, of each step; `applied` counts migration receipts. Positions count from 1,
      as the journal's sequence numbers do. */
  datatype View = View(host: HostView, window: WindowView, steps: StepView)

  datatype HostView = HostView(
    init: Option<Init>,
    intents: set<HostStep>,
    done: map<HostStep, nat>,
    settled: Option<int>,
    contained: bool,
    drift: Option<int>,
    resumed: bool)

  datatype WindowView = WindowView(
    init: Option<Config>,
    baseline: bool,
    quiescent: Option<Quiescence>,
    request: Option<At<Request>>,
    backup: Option<At<Receipt>>,
    marker: Option<At<int>>)

  datatype StepView = StepView(
    intents: set<Step>,
    done: set<Step>,
    applied: nat,
    crew: Option<PerRole<Created>>,
    backendStart: Option<nat>,
    failures: map<nat, bool>,
    migrated: Option<int>,
    failed: bool,
    complete: bool)

  datatype Init = Init(fingerprint: int, started: PerRole<nat>, restarts: PerRole<nat>)

  datatype At<+T> = At(at: nat, of: T)

  const EMPTY := View(HostView(None, {}, map[], None, false, None, false),
                      WindowView(None, false, None, None, None, None),
                      StepView({}, {}, 0, None, None, map[], None, false, false))

  function RecordHost(v: HostView, e: Event): HostView {
    match e
    case HostInit(f, s, r) => v.(init := Some(Init(f, s, r)))
    case HostIntent(s) => v.(intents := v.intents + {s})
    case HostDone(s, f) => v.(done := v.done[s := f])
    case HostSettled(q) => v.(settled := Some(q))
    case HostContained(_, _) => v.(contained := true)
    case DriftAccepted(_, q) => v.(drift := Some(q))
    case HostResumed => v.(resumed := true)
    case _ => v
  }

  function RecordWindow(v: WindowView, n: nat, e: Event): WindowView {
    match e
    case TransitionInit(c) => v.(init := Some(c))
    case Baseline => v.(baseline := true)
    case Quiescent(f, q) => v.(quiescent := Some(Quiescence(n, f, q)))
    case BackupRequested(r) => v.(request := Some(At(n, r)))
    case BackupReceived(r) => v.(backup := Some(At(n, r)))
    case DdlMarker(b) => v.(marker := Some(At(n, b)))
    case _ => v
  }

  function RecordStep(v: StepView, e: Event): StepView {
    match e
    case Intent(s) => v.(intents := v.intents + {s})
    case Done(s) => v.(done := v.done + {s}, applied := v.applied + if s.Apply? then 1 else 0)
    case CandidateCreated(crew) => v.(done := v.done + {CreateHeld}, crew := Some(crew))
    case BackendStarted(f) => v.(done := v.done + {StartBackend}, backendStart := Some(f))
    case StepFailed(i, _, d) => v.(failures := v.failures[i := d])
    case Migrated(c) => v.(migrated := Some(c))
    case Failed => v.(failed := true)
    case Complete => v.(complete := true)
    case _ => v
  }

  /** The view after one more event, written at position n. */
  function Record(v: View, n: nat, e: Event): View {
    View(RecordHost(v.host, e), RecordWindow(v.window, n, e), RecordStep(v.steps, e))
  }

  function ViewOf(j: seq<Event>): View {
    if j == [] then EMPTY else Record(ViewOf(j[..|j| - 1]), |j|, j[|j| - 1])
  }

  lemma ViewAppend(j: seq<Event>, e: Event)
    ensures ViewOf(j + [e]) == Record(ViewOf(j), |j| + 1, e)
  {
    assert (j + [e])[..|j|] == j;
  }

  // -- queries ---------------------------------------------------------------

  predicate Resuming(v: View) {
    LegacyResume in v.host.intents
  }

  predicate Marked(v: View) {
    v.window.marker.Some?
  }

  ghost predicate TermsDoneBefore(v: View, r: Role) {
    forall q: Role :: ContainRank(q) < ContainRank(r) ==> Term(q) in v.host.done
  }

  ghost predicate AllTermsDone(v: View) {
    forall q: Role :: Term(q) in v.host.done
  }

  ghost predicate ResumedBefore(v: View, r: Role) {
    forall q: Role :: StartRank(q) < StartRank(r) ==> ResumeRole(q) in v.host.done
  }

  ghost predicate AllResumed(v: View) {
    forall q: Role :: ResumeRole(q) in v.host.done
  }

  /** An intent without a receipt. */
  predicate Open(v: View, s: Step) {
    s in v.steps.intents && s !in v.steps.done
  }

  ghost predicate AppliedBefore(v: View, n: nat) {
    forall k: nat :: k < n ==> Apply(k) in v.steps.done
  }

  predicate ValidReceipt(c: Config, r: Receipt) {
    && r.plan == c.plan && r.identity == c.identity
    && r.baseline == c.plan.baseline && r.catalog == c.catalog && r.restored
    && r.clone.verified && r.clone.identity != c.identity && r.clone.clusterDdl
    && r.clone.applied == |c.plan.pending|
    && r.clone.finalLedger == |c.plan.baseline| + |c.plan.pending|
    && r.clone.concurrent == c.plan.ConcurrentCount(|c.plan.pending|)
    && r.clone.sql == c.plan.pending
  }

  // -- what the past holds when an event is written --------------------------------

  ghost predicate HostIntentAllowed(v: View, s: HostStep) {
    && v.host.init.Some? && s !in v.host.intents
    && match s
       case Ingress => !Resuming(v)
       case RestartNo(r) => !Resuming(v) && Ingress in v.host.done && TermsDoneBefore(v, r)
       case Term(r) =>
         !Resuming(v) && Ingress in v.host.done && TermsDoneBefore(v, r) && RestartNo(r) in v.host.done
       case LegacyResume => !Marked(v) && v.host.contained
       case ResumeRole(r) => !Marked(v) && Resuming(v) && ResumedBefore(v, r)
       case OpenIngress => !Marked(v) && Resuming(v) && AllResumed(v)
  }

  ghost predicate HostDoneAllowed(v: View, s: HostStep, freshStart: nat) {
    && v.host.init.Some? && s !in v.host.done
    && match s
       case Ingress => !Resuming(v)
       case RestartNo(r) =>
         !Resuming(v) && Ingress in v.host.done && TermsDoneBefore(v, r) && s in v.host.intents
       case Term(r) =>
         !Resuming(v) && Ingress in v.host.done && TermsDoneBefore(v, r)
         && RestartNo(r) in v.host.done && s in v.host.intents
       case LegacyResume => false
       case ResumeRole(r) =>
         !Marked(v) && s in v.host.intents && ResumedBefore(v, r)
         && freshStart != v.host.init.value.started.At(r)
       case OpenIngress => !Marked(v) && s in v.host.intents && AllResumed(v)
  }

  ghost predicate IntentAllowed(c: Config, v: View, s: Step) {
    && Marked(v) && !v.steps.failed
    && match s
       case Apply(i) => i < |c.plan.pending| && s !in v.steps.intents && AppliedBefore(v, i)
       case Layout => v.steps.migrated.Some? && Layout !in v.steps.done
       case CreateHeld => Layout in v.steps.done && s !in v.steps.intents
       case StartBackend => CreateHeld in v.steps.done && s !in v.steps.intents
  }

  ghost predicate DoneAllowed(v: View, s: Step) {
    s in v.steps.intents && s !in v.steps.done && !v.steps.failed
  }

  /** The event may follow a journal with this view. */
  ghost predicate Justified(c: Config, v: View, e: Event) {
    match e
    case HostInit(_, _, _) => v.host.init.None?
    case HostIntent(s) => HostIntentAllowed(v, s)
    case HostDone(s, f) => HostDoneAllowed(v, s, f)
    case HostSettled(_) => v.host.settled.None? && !Resuming(v) && AllTermsDone(v) && Ingress in v.host.done
    case HostContained(_, q) => !v.host.contained && !Resuming(v) && v.host.settled == Some(q)
    case DriftAccepted(s, q) => !Marked(v) && v.host.contained && v.host.settled == Some(s) && q != s
    case HostResumed => !Marked(v) && OpenIngress in v.host.done && !v.host.resumed
    case TransitionInit(d) => d == c && v.window.init.None?
    case Baseline => !Marked(v) && !Resuming(v) && !v.window.baseline
    case Quiescent(f, q) =>
      !Marked(v) && !Resuming(v) && v.host.contained && v.window.request.None? && v.host.settled == Some(q)
      && v.window.baseline && v.host.init.Some? && v.host.init.value.fingerprint == f
    case BackupRequested(q) =>
      !Marked(v) && !Resuming(v) && v.window.request.None? && v.window.quiescent == Some(q.quiescence) && q.config == c
    case BackupReceived(r) =>
      !Marked(v) && !Resuming(v) && v.window.request.Some? && v.window.backup.None?
      && ValidReceipt(c, r) && r.id.Some? && r.request == Some(v.window.request.value.of)
    case DdlMarker(b) =>
      !Marked(v) && !Resuming(v) && v.window.backup.Some? && v.steps.intents == {}
          && v.window.backup.value.of.id == Some(b)
    case Intent(s) => IntentAllowed(c, v, s)
    case Done(s) => DoneAllowed(v, s) && (s.Layout? || (s.Apply? && s.index !in v.steps.failures))
    case CandidateCreated(_) => DoneAllowed(v, CreateHeld)
    case BackendStarted(_) => DoneAllowed(v, StartBackend)
    case StepFailed(i, _, _) => Open(v, Apply(i)) && i !in v.steps.failures && !v.steps.failed
    case Migrated(_) => Marked(v) && AppliedBefore(v, |c.plan.pending|) && v.steps.migrated.None? && !v.steps.failed
    case Failed => Marked(v) && !v.steps.failed
    case Complete => StartBackend in v.steps.done && !v.steps.complete && !v.steps.failed
  }

  /** Every event was written over a past that justified it. */
  ghost predicate WellFormed(c: Config, j: seq<Event>) {
    j == [] || (WellFormed(c, j[..|j| - 1]) && Justified(c, ViewOf(j[..|j| - 1]), j[|j| - 1]))
  }

  lemma WellFormedAppend(c: Config, j: seq<Event>, e: Event)
    ensures WellFormed(c, j + [e]) <==> WellFormed(c, j) && Justified(c, ViewOf(j), e)
  {
    assert (j + [e])[..|j|] == j;
  }
}
