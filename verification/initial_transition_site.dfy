/** How the host of the initial transition moves and is changed, and what every site keeps. */
module InitialTransitionSite {
  import opened Outcomes
  import opened Roles
  import opened ReconciliationDelta
  import opened InitialTransitionJournal
  import opened InitialTransitionWorld

  datatype Op = LegacyPolicy(role: Role, policy: Policy) | LegacySignal(role: Role) | LegacyStart(role: Role)
              | CreateCandidate | StartCandidate(role: Role) | CandidatePolicy(role: Role, policy: Policy)
              | CandidateSignal(role: Role) | JobCreate(name: JobName) | JobStart(name: JobName)

  /** One effect sent out: the journal at that moment, the last world read before it, and whether it created or
      started a job container. */
  datatype Emission = Emission(op: Op, past: seq<Event>, view: World, took: bool)

  predicate Progressed(x: Container, y: Container) {
    y.id == x.id && y.matches == x.matches && (y == x || (x.status.Running? && y.status.Exited?))
  }

  /** What happens around the controller: anything but what the assumptions exclude. */
  predicate Moves(t: Terms, w: World, w': World) {
    && (t.kept ==> w'.jobs.Keys == w.jobs.Keys && forall n <- w.jobs :: Progressed(w.jobs[n], w'.jobs[n]))
    && (t.soleWriter ==>
          && (!MigrationRunning(w) ==> w'.db == w.db)
          && w.db.ledger <= w'.db.ledger
          && forall x <- w'.db.ledger - w.db.ledger ::
               exists n <- w.jobs :: n.MigrationJob? && w.jobs[n].status.Running? && n.index == x)
  }

  /** What an effect does to the job containers and the database; the rest is the environment's. */
  ghost predicate Delivered(op: Op, w: World, w': World) {
    && w'.db == w.db
    && match op
       case JobCreate(n) => n !in w.jobs && exists id: nat :: w'.jobs == w.jobs[n := Container(id, true, Created, 0)]
       case JobStart(n) => n in w.jobs && w.jobs[n].status.Created?
           && w'.jobs == w.jobs[n := w.jobs[n].(status := Running)]
       case _ => w'.jobs == w.jobs
  }

  // -- what is known of every effect ------------------------------------------------------------

  ghost predicate Lawful(v: View, w: World, op: Op) {
    match op
    case LegacyPolicy(r, p) =>
      !v.ddl.marker
      && (p == No ==> !v.legacy.resuming && PolicyNo(r) in v.legacy.intents)
      && (p != No ==> v.legacy.resuming && ResumeRole(r) in v.legacy.intents && ResumeRole(r) !in v.legacy.done)
    case LegacySignal(r) =>
      !v.ddl.marker && !v.legacy.resuming && PolicyNo(r) in v.legacy.done && Signal(r) in v.legacy.intents
    case LegacyStart(r) =>
      && !v.ddl.marker && v.legacy.resuming && ResumeRole(r) in v.legacy.intents && ResumeRole(r) !in v.legacy.done
      && !w.legacy.At(r).running && v.legacy.observed.Some?
      && w.legacy.At(r).policy == v.legacy.observed.value.At(r).policy
    case CreateCandidate => v.ddl.marker && SchemaVerified in v.stages && !v.candidate.created
    case StartCandidate(r) => MayStart(v) && r in v.candidate.intended && !w.candidate.At(r).running
    case CandidatePolicy(r, p) =>
      v.ddl.marker && v.candidate.created && !v.candidate.promoted && (p != No ==> v.candidate.ready)
    case CandidateSignal(r) =>
      && v.ddl.marker && v.candidate.created && !v.candidate.promoted
      && w.candidate.At(r).running && w.candidate.At(r).policy == No
    case JobCreate(n) => n in v.ddl.jobIntents && n !in v.ddl.jobs && JobAllowed(v, n) && n !in w.jobs
    case JobStart(n) =>
      && n in v.ddl.jobs && JobAllowed(v, n)
      && n in w.jobs && w.jobs[n].id == v.ddl.jobs[n] && w.jobs[n].status.Created?
  }

  /** What the last event of the journal must be when an effect is sent: its own intent, or the decision. */
  ghost predicate Intended(past: seq<Event>, op: Op) {
    op.JobStart?
    || (past != [] &&
        var e := past[|past| - 1];
        match op
        case LegacyPolicy(r, p) => e == if p == No then Intent(PolicyNo(r)) else Intent(ResumeRole(r))
        case LegacySignal(r) => e == Intent(Signal(r)) || e == Decided(Resignal(r))
        case LegacyStart(r) => e == Intent(ResumeRole(r))
        case CreateCandidate => e == CandidateCreateIntended
        case StartCandidate(r) => e == StartIntended(r)
        case CandidatePolicy(r, p) => e == if p == No then ContainIntended else PolicyIntended(r)
        case CandidateSignal(_) => e == ContainIntended
        case JobCreate(n) => e == JobIntended(n)
        case JobStart(_) => true)
  }

  /** How many signals a role may have been sent: one for its intent and one for each decision to send again. */
  ghost function SignalsAllowed(v: View, r: Role): nat {
    (if Signal(r) in v.legacy.intents then 1 else 0) + Count(v.legacy.resignals, r)
  }

  ghost function SignalsSent(trace: seq<Emission>, r: Role): nat {
    if trace == [] then 0
    else SignalsSent(trace[..|trace| - 1], r) + if trace[|trace| - 1].op == LegacySignal(r) then 1 else 0
  }

  // -- what the world shows when an event is written -------------------------------------------------

  ghost predicate Fits(t: Terms, v: View, w: World, e: Event) {
    match e
    case Decided(RetryMigration(i)) => t.kept && t.soleWriter ==> CleanRetry(t, w, i)
    case MigrationRefused(i, Some(a), _) => t.kept ==> !Active(w, MigrationJob(i, a))
    case MigrationDone(i) =>
      && (t.kept ==> !Active(w, MigrationJob(i, Attempt(v, i))))
      && (t.soleWriter ==> i in w.db.ledger)
    case JobIntended(n) => t.kept && n.MigrationJob? ==> n in v.ddl.begun
    case JobRecorded(n, id) => t.kept ==> n in w.jobs && w.jobs[n].id == id && w.jobs[n].matches
    case Done(ResumeRole(r), f) => v.legacy.observed.Some? && f != v.legacy.observed.value.At(r).started
    case _ => true
  }

  // -- the invariant -----------------------------------------------------------------------------------

  /** An event was written at the end of this course. */
  ghost predicate Witness(t: Terms, v: View, course: Course, e: Event) {
    course != [] && var w := course[|course| - 1]; Fits(t, v, w, e) && Shown(t, v, w, course, e)
  }

  /** `written` holds the course each event was written at the end of. */
  ghost predicate Witnessed(t: Terms, j: seq<Event>, written: seq<Course>) {
    |written| == |j| && forall k :: 0 <= k < |j| ==> Witness(t, ViewOf(j[..k]), written[k], j[k])
  }

  ghost predicate JobsInv(t: Terms, v: View, w: World) {
    && (forall n <- w.jobs :: n in v.ddl.jobIntents)
    && (forall n <- v.ddl.jobs :: n in w.jobs && w.jobs[n].id == v.ddl.jobs[n] && w.jobs[n].matches)
    && (forall n <- w.jobs :: n.MigrationJob? && Active(w, n) ==>
          n.index == v.ddl.done && n.attempt == Attempt(v, n.index) && !RefusedNow(v, n.index))
  }

  /** The ledger is the baseline, the receipted prefix, and at most the migration after it. */
  ghost predicate LedgerInv(t: Terms, v: View, w: World) {
    && t.origin <= w.db.ledger
    && (forall i :: 0 <= i < v.ddl.done ==> i in w.db.ledger)
    && (forall x <- w.db.ledger :: x in t.origin || 0 <= x <= v.ddl.done)
  }

  ghost predicate TraceInv(t: Terms, j: seq<Event>, w: World, trace: seq<Emission>) {
    && (forall e <- trace :: e.past <= j && Lawful(ViewOf(e.past), e.view, e.op) && Intended(e.past, e.op))
    && (forall r: Role :: SignalsSent(trace, r) <= SignalsAllowed(ViewOf(j), r))
    && (t.kept ==>
          && (forall e <- trace :: e.took ==> (e.op.JobCreate? || e.op.JobStart?) && e.op.name in w.jobs
                                              && (e.op.JobStart? ==> !w.jobs[e.op.name].status.Created?))
          && (forall i, k :: 0 <= i < k < |trace| && trace[i].took && trace[k].took ==> trace[i].op != trace[k].op))
  }

  ghost predicate SiteInv(t: Terms, j: seq<Event>, written: seq<Course>, w: World, trace: seq<Emission>) {
    && WellFormed(t.TheCase(), |t.pending|, j)
    && Witnessed(t, j, written)
    && TraceInv(t, j, w, trace)
    && (t.kept ==> JobsInv(t, ViewOf(j), w))
    && (t.kept && t.soleWriter ==> LedgerInv(t, ViewOf(j), w))
  }

  // -- the environment moves -----------------------------------------------------------------------------

  lemma MovesKeepJobs(t: Terms, v: View, w: World, w': World)
    requires Moves(t, w, w') && t.kept && JobsInv(t, v, w)
    ensures JobsInv(t, v, w')
    ensures t.soleWriter && LedgerInv(t, v, w) ==> LedgerInv(t, v, w')
  {
    forall n <- w'.jobs
      ensures Active(w', n) ==> Active(w, n)
    {
      assert Progressed(w.jobs[n], w'.jobs[n]);
    }
    if t.soleWriter && LedgerInv(t, v, w) {
      forall x <- w'.db.ledger
        ensures x in t.origin || 0 <= x <= v.ddl.done
      {
        if x !in w.db.ledger {
          assert x in w'.db.ledger - w.db.ledger;
          var n :| n in w.jobs && n.MigrationJob? && w.jobs[n].status.Running? && n.index == x;
          assert Active(w, n);
        }
      }
    }
  }

  lemma MovesKeep(t: Terms, j: seq<Event>, written: seq<Course>, w: World, w': World, trace: seq<Emission>)
    requires SiteInv(t, j, written, w, trace) && Moves(t, w, w')
    ensures SiteInv(t, j, written, w', trace)
  {
    hide ViewOf, Lawful, WellFormed, Witnessed, JobsInv, LedgerInv;
    if t.kept {
      MovesKeepJobs(t, ViewOf(j), w, w');
    }
  }

  // -- an event is written ---------------------------------------------------------------------------------

  lemma WitnessedAppend(t: Terms, j: seq<Event>, written: seq<Course>, course: Course, e: Event)
    requires Witnessed(t, j, written) && Witness(t, ViewOf(j), course, e)
    ensures Witnessed(t, j + [e], written + [course])
  {
    hide Witness, ViewOf;
    forall k | 0 <= k <= |j|
      ensures Witness(t, ViewOf((j + [e])[..k]), (written + [course])[k], (j + [e])[k])
    {
      assert (j + [e])[..k] == j[..k];
    }
  }

  lemma TraceAppend(t: Terms, j: seq<Event>, w: World, trace: seq<Emission>, e: Event)
    requires TraceInv(t, j, w, trace)
    ensures TraceInv(t, j + [e], w, trace)
  {
    ViewAppend(j, e);
    hide ViewOf, Lawful;
    forall r: Role
      ensures SignalsAllowed(ViewOf(j), r) <= SignalsAllowed(ViewOf(j + [e]), r)
    {
    }
  }

  lemma JobsAppend(t: Terms, v: View, w: World, e: Event)
    requires JobsInv(t, v, w) && t.kept
    requires Justified(t.TheCase(), |t.pending|, v, e) && Fits(t, v, w, e)
    ensures JobsInv(t, Record(v, e), w)
  {
    hide LegacyIntentAllowed, LegacyDoneAllowed, StageAllowed, MayStart, RecordLegacy, RecordData, RecordCandidate,
      Precondition, Accepted, CleanRetry;
  }

  lemma LedgerAppend(t: Terms, v: View, w: World, e: Event)
    requires LedgerInv(t, v, w) && t.soleWriter
    requires Justified(t.TheCase(), |t.pending|, v, e) && Fits(t, v, w, e)
    ensures LedgerInv(t, Record(v, e), w)
  {
  }

  lemma AppendKeeps(t: Terms, j: seq<Event>, written: seq<Course>, course: Course, w: World, trace: seq<Emission>,
                    e: Event)
    requires SiteInv(t, j, written, w, trace) && Standing(course, w)
    requires Justified(t.TheCase(), |t.pending|, ViewOf(j), e) && Fits(t, ViewOf(j), w, e)
    requires Shown(t, ViewOf(j), w, course, e)
    ensures SiteInv(t, j + [e], written + [course], w, trace)
  {
    hide ViewOf, WellFormed, Witnessed, TraceInv, JobsInv, LedgerInv, Fits, Shown, Justified;
    ViewAppend(j, e);
    WellFormedAppend(t.TheCase(), |t.pending|, j, e);
    WitnessedAppend(t, j, written, course, e);
    TraceAppend(t, j, w, trace, e);
    if t.kept {
      JobsAppend(t, ViewOf(j), w, e);
      if t.soleWriter {
        LedgerAppend(t, ViewOf(j), w, e);
      }
    }
  }

  // -- an effect is sent --------------------------------------------------------------------------------------

  /** The effect met a world the environment had moved to, and took place or not. */
  ghost predicate Sent(t: Terms, w: World, m: Emission, met: World, w': World) {
    && Moves(t, w, met)
    && (if m.took then (m.op.JobCreate? || m.op.JobStart?) && Delivered(m.op, met, w')
        else w'.jobs == met.jobs && w'.db == met.db)
  }

  lemma SentKeepsTrace(t: Terms, j: seq<Event>, w: World, trace: seq<Emission>, m: Emission, w': World)
    requires TraceInv(t, j, w, trace) && Sent(t, w, m, w, w')
    requires m.past == j && Lawful(ViewOf(j), m.view, m.op) && Intended(j, m.op)
    requires forall r: Role :: m.op == LegacySignal(r) ==> SignalsSent(trace, r) < SignalsAllowed(ViewOf(j), r)
    ensures TraceInv(t, j, w', trace + [m])
  {
    hide ViewOf, Lawful, Intended;
    var all := trace + [m];
    assert all[..|all| - 1] == trace;
    forall e <- all ensures e in trace || e == m {}
  }

  lemma SentKeepsJobs(t: Terms, v: View, w: World, m: Emission, w': World)
    requires JobsInv(t, v, w) && Sent(t, w, m, w, w') && t.kept && Lawful(v, m.view, m.op)
    ensures JobsInv(t, v, w')
  {
  }

  lemma EffectKeeps(t: Terms, j: seq<Event>, written: seq<Course>, w: World, trace: seq<Emission>, m: Emission,
      met: World, w': World)
    requires SiteInv(t, j, written, w, trace) && Sent(t, w, m, met, w')
    requires m.past == j && Lawful(ViewOf(j), m.view, m.op) && Intended(j, m.op)
    requires forall r: Role :: m.op == LegacySignal(r) ==> SignalsSent(trace, r) < SignalsAllowed(ViewOf(j), r)
    ensures SiteInv(t, j, written, w', trace + [m])
  {
    MovesKeep(t, j, written, w, met, trace);
    assert Moves(t, met, met);
    assert Sent(t, met, m, met, w');
    hide ViewOf, WellFormed, Witnessed, TraceInv, JobsInv, Lawful, Moves;
    SentKeepsTrace(t, j, met, trace, m, w');
    if t.kept {
      SentKeepsJobs(t, ViewOf(j), met, m, w');
    }
  }
}
