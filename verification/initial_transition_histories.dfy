/** Whole histories of the initial transition: any number of runs and resumes, killed or refused anywhere, with
    any human decisions; and what every one of them keeps. */
module InitialTransitionHistories {
  import opened Outcomes
  import opened Roles
  import opened ReconciliationDelta
  import opened InitialTransitionJournal
  import opened InitialTransitionWorld
  import opened InitialTransitionTheorems
  import opened InitialTransitionSite
  import opened InitialTransitionPorts
  import opened InitialTransition

  // -- counting ------------------------------------------------------------------------------

  ghost function Retries(j: seq<Event>, i: Index): nat {
    if j == [] then 0
    else Retries(j[..|j| - 1], i) + if j[|j| - 1] == Decided(RetryMigration(i)) then 1 else 0
  }

  ghost function Resignals(j: seq<Event>, r: Role): nat {
    if j == [] then 0
    else Resignals(j[..|j| - 1], r) + if j[|j| - 1] == Decided(Resignal(r)) then 1 else 0
  }

  /** A job of this migration was started. */
  predicate Executes(e: Emission, i: Index) {
    e.took && e.op.JobStart? && e.op.name.MigrationJob? && e.op.name.index == i
  }

  ghost function Executions(trace: seq<Emission>, i: Index): nat {
    if trace == [] then 0
    else Executions(trace[..|trace| - 1], i) + if Executes(trace[|trace| - 1], i) then 1 else 0
  }

  ghost function AttemptsStarted(trace: seq<Emission>, i: Index): set<nat> {
    if trace == [] then {}
    else
      var e := trace[|trace| - 1];
      AttemptsStarted(trace[..|trace| - 1], i) + if Executes(e, i) then {e.op.name.attempt} else {}
  }

  lemma {:induction false} CountsAre(j: seq<Event>, i: Index, r: Role)
    ensures Count(ViewOf(j).ddl.retries, i) == Retries(j, i)
    ensures Count(ViewOf(j).legacy.resignals, r) == Resignals(j, r)
    ensures Signal(r) in ViewOf(j).legacy.intents <==> Intent(Signal(r)) in j
  {
    hide ViewOf, RecordData, RecordCandidate;
    Unfolded(j);
    if j != [] {
      CountsAre(j[..|j| - 1], i, r);
      assert j == j[..|j| - 1] + [j[|j| - 1]];
    }
  }

  lemma {:induction false} RetriesGrow(p: seq<Event>, j: seq<Event>, i: Index)
    requires p <= j
    ensures Retries(p, i) <= Retries(j, i)
    decreases |j|
  {
    if p != j {
      RetriesGrow(p, j[..|j| - 1], i);
    }
  }

  /** Some execution is this attempt's. */
  ghost predicate Attempted(trace: seq<Emission>, i: Index, a: nat) {
    exists k :: 0 <= k < |trace| && Executes(trace[k], i) && trace[k].op.name.attempt == a
  }

  ghost predicate NothingTwice(trace: seq<Emission>) {
    forall i, k :: 0 <= i < k < |trace| && trace[i].took && trace[k].took ==> trace[i].op != trace[k].op
  }

  lemma AttemptedStep(p: seq<Emission>, e: Emission, i: Index, a: nat)
    requires Attempted(p, i, a)
    ensures Attempted(p + [e], i, a)
    ensures NothingTwice(p + [e]) && Executes(e, i) ==> a != e.op.name.attempt
  {
    var k :| 0 <= k < |p| && Executes(p[k], i) && p[k].op.name.attempt == a;
    assert (p + [e])[k] == p[k] && (p + [e])[|p|] == e;
  }

  /** The attempts started are those of the executions, each once when no start was repeated. */
  lemma {:induction false} AttemptsAre(trace: seq<Emission>, i: Index)
    requires NothingTwice(trace)
    ensures |AttemptsStarted(trace, i)| == Executions(trace, i)
    ensures forall a <- AttemptsStarted(trace, i) :: Attempted(trace, i, a)
  {
    hide Attempted, NothingTwice;
    if trace != [] {
      var p, e := trace[..|trace| - 1], trace[|trace| - 1];
      assert trace == p + [e];
      AttemptsStep(p, e, i);
      AttemptsAre(p, i);
      forall a <- AttemptsStarted(p, i)
        ensures Attempted(trace, i, a)
        ensures Executes(e, i) ==> a != e.op.name.attempt
      {
        AttemptedStep(p, e, i, a);
      }
    }
  }

  lemma AttemptsStep(p: seq<Emission>, e: Emission, i: Index)
    requires NothingTwice(p + [e])
    ensures NothingTwice(p)
    ensures Executes(e, i) ==> Attempted(p + [e], i, e.op.name.attempt)
  {
    var trace := p + [e];
    assert forall k :: 0 <= k < |p| ==> p[k] == trace[k];
    assert trace[|p|] == e;
  }

  lemma {:induction false} UpTo(s: set<nat>, n: nat)
    requires forall a <- s :: 1 <= a <= n
    ensures |s| <= n
  {
    if n == 0 {
      assert s == {};
    } else {
      UpTo(s - {n}, n - 1);
      assert |s| <= |s - {n}| + 1 by {
        if n in s { assert s == (s - {n}) + {n}; } else { assert s == s - {n}; }
      }
    }
  }

  // -- safety -----------------------------------------------------------------------------------

  /** Every job container was created at most once and started at most once: the apply of the reconciliation
      too, and one attempt of a migration; a migration ran at most once more than a human decided. */
  ghost predicate JobsOnce(j: seq<Event>, trace: seq<Emission>) {
    && NothingTwice(trace)
    && (forall i: Index :: Executions(trace, i) <= 1 + Retries(j, i))
  }

  /** A migration job was intended only after its attempt was begun: the migration read absent from the ledger, no
      session and no job of a migration, and nobody else. */
  ghost predicate AttemptsRead(j: seq<Event>, written: seq<Course>) {
    |written| == |j|
    && forall k: nat :: k < |j| && j[k].JobIntended? && j[k].name.MigrationJob? ==>
         exists m: nat :: m < k && j[m] == MigrationStarted(j[k].name.index, j[k].name.attempt)
                          && IdleSeen(written[m], j[k].name.index)
  }

  /** Every effect but the start of a job was sent right after its own intent, or decision, was durable. */
  ghost predicate EffectsIntended(trace: seq<Emission>) {
    forall e <- trace :: Intended(e.past, e.op)
  }

  /** A retry was decided only over a database with nothing left of the failed attempt. */
  ghost predicate RetriesClean(t: Terms, j: seq<Event>, written: seq<Course>) {
    |written| == |j|
    && forall k, i :: 0 <= k < |j| && j[k] == Decided(RetryMigration(i)) ==>
         written[k] != [] && CleanRetry(t, written[k][|written[k]| - 1], i)
  }

  /** Once the marker is in the journal no legacy container was ever started or set to restart again. */
  ghost predicate LegacyStaysDown(j: seq<Event>, trace: seq<Emission>) {
    DdlMarker in j ==> forall e <- trace :: !e.op.LegacyStart? && (e.op.LegacyPolicy? ==> e.op.policy == No)
  }

  ghost predicate SignalsBoundedBy(j: seq<Event>, trace: seq<Emission>) {
    forall r: Role :: SignalsSent(trace, r) <= (if Intent(Signal(r)) in j then 1 else 0) + Resignals(j, r)
  }

  /** A candidate was only started after the marker and, once contained, after a decision in the same epoch. */
  ghost predicate CandidateStartsSafe(trace: seq<Emission>) {
    forall e <- trace :: e.op.StartCandidate? ==>
      DdlMarker in e.past && (Epoch(e.past) > 0 ==> InEpoch(e.past, Decided(RetryCandidate)))
  }

  /** A container was only created when none of its name was read, and only started when the recorded one was read
      as created and not started. */
  ghost predicate JobsRead(trace: seq<Emission>) {
    && (forall e <- trace :: e.op.JobCreate? ==> e.op.name !in e.view.jobs)
    && (forall e <- trace :: e.op.JobStart? ==>
          var jobs := ViewOf(e.past).ddl.jobs;
          && e.op.name in jobs && e.op.name in e.view.jobs
          && e.view.jobs[e.op.name].id == jobs[e.op.name] && e.view.jobs[e.op.name].status.Created?)
  }

  /** A verified reconciliation: the settled data, read again when the baseline was journaled, link the account to the
      person named and hold no row of the operation; they and the data read after the apply differ by exactly the
      authorized effect; after that read Redis was read unchanged, and no duplicate link found. */
  ghost predicate Reconciles(t: Terms, j: seq<Event>, written: seq<Course>, s: nat, b: nat, k: nat) {
    && s < b < k < |j| == |written| && j[s].Settle? && j[b].ReconcileBaseline? && j[k].Verified?
    && j[b].base == ScopeOf(t.TheCase(), j[s].snap.data) && j[b].redis == j[s].snap.redis == j[k].snap.redis
    && Seen(written[b], DataIs(j[s].snap.data)) && Seen(written[b], RedisIs(j[s].snap.redis))
    && AuthorizedEffect(t.TheCase(), j[s].snap.data, j[k].snap.data)
    && j[s].snap.data.users[t.TheCase().target].person == Some(t.TheCase().person)
    && (forall a <- j[s].snap.data.audit ::
          j[s].snap.data.audit[a].action == RECONCILE ==>
            j[s].snap.data.audit[a].detail.operation != Some(t.TheCase().operation))
    && Seen(written[k], DataIs(j[k].snap.data)) && Seen(written[k], RedisIs(j[k].snap.redis))
    && Seen(written[k], NoDuplicate)
  }

  ghost predicate ReconciliationExact(t: Terms, j: seq<Event>, written: seq<Course>) {
    forall k: nat :: k < |j| && j[k].Verified? ==> exists s, b :: Reconciles(t, j, written, s, b, k)
  }

  /** The marker at m was written in one course of reads that showed every legacy container contained on the very
      execution first identified (at o), the ledger as it was then and no trace of DDL, the data and Redis of the
      last snapshot (at s), the expected queues, and nobody else. */
  ghost predicate MarkerRests(j: seq<Event>, written: seq<Course>, o: nat, s: nat, m: nat) {
    && o < m < |j| == |written| && s < m && j[m].DdlMarker?
    && j[o].Identified? && (j[s].Settle? || j[s].Verified?)
    && (forall r: Role :: Seen(written[m], ContainedExit(r, j[o].legacy.At(r))))
    && Seen(written[m], LedgerIs(j[o].ledger))
    && Seen(written[m], NoInvalid) && Seen(written[m], NoBuilds) && Seen(written[m], NoSessions)
    && Seen(written[m], DataIs(j[s].snap.data)) && Seen(written[m], RedisIs(j[s].snap.redis))
    && Seen(written[m], Expected) && Seen(written[m], Scoped)
  }

  ghost predicate MarkersSafe(j: seq<Event>, written: seq<Course>) {
    forall m: nat :: m < |j| && j[m].DdlMarker? ==> exists o, s :: MarkerRests(j, written, o, s, m)
  }

  /** No role is brought back without a proof of everything journaled and of an untouched database right before. */
  ghost predicate ResumesProved(j: seq<Event>, written: seq<Course>) {
    |written| == |j|
    && forall k, r :: 0 <= k < |j| && j[k] == Intent(ResumeRole(r)) ==>
         RevalidSeen(ViewOf(j[..k]), written[k]) && UntouchedSeen(ViewOf(j[..k]), written[k])
  }

  lemma JobsAreOnce(t: Terms, j: seq<Event>, written: seq<Course>, w: World, trace: seq<Emission>)
    requires SiteInv(t, j, written, w, trace) && t.kept
    ensures JobsOnce(j, trace)
  {
    hide ViewOf, WellFormed, Witnessed, JobsInv, LedgerInv, Lawful;
    assert NothingTwice(trace);
    hide NothingTwice;
    forall i: Index
      ensures Executions(trace, i) <= 1 + Retries(j, i)
    {
      AttemptsAre(trace, i);
      forall a <- AttemptsStarted(trace, i)
        ensures 1 <= a <= 1 + Retries(j, i)
      {
        var k :| 0 <= k < |trace| && Executes(trace[k], i) && trace[k].op.name.attempt == a;
        AttemptBounded(trace[k], j, i);
      }
      UpTo(AttemptsStarted(trace, i), 1 + Retries(j, i));
    }
  }

  /** The attempt a lawfully started job belongs to was decided. */
  lemma AttemptBounded(e: Emission, j: seq<Event>, i: Index)
    requires Lawful(ViewOf(e.past), e.view, e.op) && e.past <= j && Executes(e, i)
    ensures 1 <= e.op.name.attempt <= 1 + Retries(j, i)
  {
    hide ViewOf;
    CountsAre(e.past, i, Backend);
    RetriesGrow(e.past, j, i);
  }

  lemma RetriesWereClean(t: Terms, j: seq<Event>, written: seq<Course>, w: World, trace: seq<Emission>)
    requires SiteInv(t, j, written, w, trace) && t.kept && t.soleWriter
    ensures RetriesClean(t, j, written)
  {
    hide ViewOf, WellFormed, TraceInv, JobsInv, LedgerInv, CleanRetry;
  }

  lemma LegacyStayedDown(t: Terms, j: seq<Event>, written: seq<Course>, w: World, trace: seq<Emission>)
    requires SiteInv(t, j, written, w, trace)
    ensures LegacyStaysDown(j, trace)
  {
    MarkerExcludesResume(t.TheCase(), |t.pending|, j);
    hide ViewOf, WellFormed, Witnessed, JobsInv, LedgerInv;
    forall e <- trace
      ensures ViewOf(e.past).legacy.resuming ==> ResumeIntent in j
    {
      MarkedIs(e.past);
    }
  }

  lemma SignalsAreBounded(t: Terms, j: seq<Event>, written: seq<Course>, w: World, trace: seq<Emission>)
    requires SiteInv(t, j, written, w, trace)
    ensures SignalsBoundedBy(j, trace)
  {
    hide ViewOf, WellFormed, Witnessed, JobsInv, LedgerInv, Lawful;
    forall r: Role
      ensures SignalsSent(trace, r) <= (if Intent(Signal(r)) in j then 1 else 0) + Resignals(j, r)
    {
      CountsAre(j, 0, r);
    }
  }

  lemma CandidateStartsAreSafe(t: Terms, j: seq<Event>, written: seq<Course>, w: World, trace: seq<Emission>)
    requires SiteInv(t, j, written, w, trace)
    ensures CandidateStartsSafe(trace)
  {
    hide ViewOf, WellFormed, Witnessed, JobsInv, LedgerInv, JobAllowed;
    forall e <- trace | e.op.StartCandidate?
      ensures DdlMarker in e.past && (Epoch(e.past) > 0 ==> InEpoch(e.past, Decided(RetryCandidate)))
    {
      MarkedIs(e.past);
      EpochIs(e.past);
    }
  }

  /** The baseline the view holds is one of the journal's events. */
  lemma {:induction false} BaseIs(j: seq<Event>)
    ensures ViewOf(j).data.base.Some? ==>
              exists b :: 0 <= b < |j| && j[b] == ReconcileBaseline(ViewOf(j).data.base.value.scope,
                  ViewOf(j).data.base.value.redis)
  {
    hide ViewOf, RecordLegacy, RecordDdl, RecordCandidate;
    Unfolded(j);
    if j != [] {
      var p := j[..|j| - 1];
      BaseIs(p);
      if j[|j| - 1].ReconcileBaseline? {
        assert j[|j| - 1] == ReconcileBaseline(ViewOf(j).data.base.value.scope, ViewOf(j).data.base.value.redis);
      } else if ViewOf(p).data.base.Some? {
        var b :| 0 <= b < |p| && p[b] == ReconcileBaseline(ViewOf(p).data.base.value.scope,
            ViewOf(p).data.base.value.redis);
        assert j[b] == p[b];
      }
    }
  }

  /** Until a reconciliation is verified, the last snapshot is a settled one. */
  lemma {:induction false} SnapshotIs(j: seq<Event>)
    ensures ViewOf(j).data.snapshot.Some? ==>
              var snap := ViewOf(j).data.snapshot.value;
              exists s: nat :: s < |j| && (j[s] == Settle(snap) || (ViewOf(j).data.verified && j[s] == Verified(snap)))
  {
    hide ViewOf, RecordLegacy, RecordDdl, RecordCandidate;
    Unfolded(j);
    if j != [] {
      var p, e := j[..|j| - 1], j[|j| - 1];
      SnapshotIs(p);
      if e.Settle? || e.Verified? {
        assert e == j[|j| - 1];
      } else if ViewOf(p).data.snapshot.Some? {
        var snap := ViewOf(p).data.snapshot.value;
        var s: nat :| s < |p| && (p[s] == Settle(snap) || (ViewOf(p).data.verified && p[s] == Verified(snap)));
        assert j[s] == p[s];
      }
    }
  }

  lemma {:induction false} IdentifiedIs(j: seq<Event>)
    ensures ViewOf(j).legacy.observed.Some? ==>
              exists o: nat :: o < |j| && j[o] == Identified(ViewOf(j).legacy.observed.value, ViewOf(j).legacy.ledger)
  {
    hide ViewOf, RecordData, RecordDdl, RecordCandidate;
    Unfolded(j);
    if j != [] {
      var p, e := j[..|j| - 1], j[|j| - 1];
      IdentifiedIs(p);
      if e.Identified? {
        assert e == j[|j| - 1];
      } else if ViewOf(p).legacy.observed.Some? {
        var o: nat :| o < |p| && p[o] == Identified(ViewOf(p).legacy.observed.value, ViewOf(p).legacy.ledger);
        assert j[o] == p[o];
      }
    }
  }

  lemma ReconciliationIsExact(t: Terms, j: seq<Event>, written: seq<Course>)
    requires WellFormed(t.TheCase(), |t.pending|, j) && Witnessed(t, j, written)
    ensures ReconciliationExact(t, j, written)
  {
    hide ViewOf, WellFormed, Witnessed, Reconciles;
    forall k: nat | k < |j| && j[k].Verified?
      ensures exists s, b :: Reconciles(t, j, written, s, b, k)
    {
      var s, b := ReconciledBy(t, j, written, k);
    }
  }

  lemma ReconciledBy(t: Terms, j: seq<Event>, written: seq<Course>, k: nat) returns (s: nat, b: nat)
    requires WellFormed(t.TheCase(), |t.pending|, j) && Witnessed(t, j, written) && k < |j| && j[k].Verified?
    ensures Reconciles(t, j, written, s, b, k)
  {
    hide ViewOf, WellFormed, Witnessed, Matches, Precondition, Justified, Seen, Shown, ByTheService;
    var p := j[..k];
    var base := VerifiedShown(t, j, written, k);
    BaseIs(p);
    b :| 0 <= b < |p| && p[b] == ReconcileBaseline(base.scope, base.redis);
    assert j[b] == p[b];
    s := SettledBy(t, j, written, b);
    PrefixWellFormed(t.TheCase(), |t.pending|, j, k);
    BaselinePrecondition(t, p);
    PreconditionIsExact(t.TheCase(), j[s].snap.data);
    MatchIsExact(t.TheCase(), j[s].snap.data, j[k].snap.data);
  }

  lemma VerifiedShown(t: Terms, j: seq<Event>, written: seq<Course>, k: nat) returns (base: Base)
    requires Witnessed(t, j, written) && k < |j| && j[k].Verified?
    ensures |written| == |j| && ViewOf(j[..k]).data.base == Some(base) && j[k].snap.redis == base.redis
    ensures Matches(t.TheCase(), base.scope, j[k].snap.data)
    ensures Seen(written[k], DataIs(j[k].snap.data)) && Seen(written[k], RedisIs(j[k].snap.redis))
    ensures Seen(written[k], NoDuplicate)
  {
    hide ViewOf, Matches, Seen, Fits;
    assert Witness(t, ViewOf(j[..k]), written[k], j[k]);
    base := ViewOf(j[..k]).data.base.value;
  }

  /** A journaled baseline is the scope of the settled data, read again before it. */
  lemma SettledBy(t: Terms, j: seq<Event>, written: seq<Course>, b: nat) returns (s: nat)
    requires WellFormed(t.TheCase(), |t.pending|, j) && Witnessed(t, j, written) && b < |j| && j[b].ReconcileBaseline?
    ensures |written| == |j| && s < b && j[s].Settle?
    ensures j[b].base == ScopeOf(t.TheCase(), j[s].snap.data) && j[b].redis == j[s].snap.redis
    ensures Seen(written[b], DataIs(j[s].snap.data)) && Seen(written[b], RedisIs(j[s].snap.redis))
  {
    hide ViewOf, WellFormed, Justified, Seen, Fits, ScopeOf;
    var q := j[..b];
    PrefixWellFormed(t.TheCase(), |t.pending|, j, b);
    assert Witness(t, ViewOf(q), written[b], j[b]);
    UnverifiedBefore(t, q, j[b]);
    SnapshotIs(q);
    var snap := ViewOf(q).data.snapshot.value;
    s :| s < |q| && q[s] == Settle(snap);
    assert j[s] == q[s];
  }

  lemma UnverifiedBefore(t: Terms, j: seq<Event>, e: Event)
    requires WellFormed(t.TheCase(), |t.pending|, j) && Justified(t.TheCase(), |t.pending|, ViewOf(j), e)
    requires e.ReconcileBaseline?
    ensures !ViewOf(j).data.verified
  {
    FactsHold(t.TheCase(), |t.pending|, j);
  }

  /** The irrevocable marker rests on one course of reads. */
  lemma MarkersAreSafe(t: Terms, j: seq<Event>, written: seq<Course>)
    requires WellFormed(t.TheCase(), |t.pending|, j) && Witnessed(t, j, written)
    ensures MarkersSafe(j, written)
  {
    hide ViewOf, WellFormed, Witnessed, MarkerRests;
    forall m: nat | m < |j| && j[m].DdlMarker?
      ensures exists o, s :: MarkerRests(j, written, o, s, m)
    {
      var o, s := MarkerIsSafe(t, j, written, m);
    }
  }

  lemma MarkerIsSafe(t: Terms, j: seq<Event>, written: seq<Course>, m: nat) returns (o: nat, s: nat)
    requires Witnessed(t, j, written) && m < |j| && j[m].DdlMarker?
    ensures MarkerRests(j, written, o, s, m)
  {
    hide ViewOf, Seen, Fits, Shown, Witnessed;
    var p := j[..m];
    MarkerShown(t, j, written, m);
    IdentifiedIs(p);
    SnapshotIs(p);
    o :| o < |p| && p[o] == Identified(ViewOf(p).legacy.observed.value, ViewOf(p).legacy.ledger);
    var snap := ViewOf(p).data.snapshot.value;
    s :| s < |p| && (p[s] == Settle(snap) || (ViewOf(p).data.verified && p[s] == Verified(snap)));
    assert j[o] == p[o] && j[s] == p[s];
  }

  lemma MarkerShown(t: Terms, j: seq<Event>, written: seq<Course>, m: nat)
    requires Witnessed(t, j, written) && m < |j| && j[m].DdlMarker?
    ensures |written| == |j| && PreDdlSeen(ViewOf(j[..m]), written[m])
  {
    hide ViewOf, PreDdlSeen, Fits;
    assert Witness(t, ViewOf(j[..m]), written[m], j[m]);
  }

  lemma ResumesAreProved(t: Terms, j: seq<Event>, written: seq<Course>)
    requires Witnessed(t, j, written)
    ensures ResumesProved(j, written)
  {
    hide ViewOf, RevalidSeen, UntouchedSeen, Fits;
    forall k, r | 0 <= k < |j| && j[k] == Intent(ResumeRole(r))
      ensures RevalidSeen(ViewOf(j[..k]), written[k]) && UntouchedSeen(ViewOf(j[..k]), written[k])
    {
      assert Witness(t, ViewOf(j[..k]), written[k], j[k]);
    }
  }

  lemma {:induction false} BegunIs(j: seq<Event>, n: JobName)
    ensures n in ViewOf(j).ddl.begun ==>
              n.MigrationJob? && exists m: nat :: m < |j| && j[m] == MigrationStarted(n.index, n.attempt)
  {
    hide ViewOf, RecordLegacy, RecordData, RecordCandidate;
    Unfolded(j);
    if j != [] {
      var p, e := j[..|j| - 1], j[|j| - 1];
      BegunIs(p, n);
      if e.MigrationStarted? && n == MigrationJob(e.index, e.attempt) {
        assert j[|j| - 1] == MigrationStarted(n.index, n.attempt);
      } else if n in ViewOf(p).ddl.begun {
        var m: nat :| m < |p| && p[m] == MigrationStarted(n.index, n.attempt);
        assert j[m] == p[m];
      }
    }
  }

  lemma AttemptsWereRead(t: Terms, j: seq<Event>, written: seq<Course>)
    requires Witnessed(t, j, written) && t.kept
    ensures AttemptsRead(j, written)
  {
    hide ViewOf, IdleSeen;
    forall k: nat | k < |j| && j[k].JobIntended? && j[k].name.MigrationJob?
      ensures exists m: nat :: m < k && j[m] == MigrationStarted(j[k].name.index, j[k].name.attempt)
                               && IdleSeen(written[m], j[k].name.index)
    {
      var n := j[k].name;
      assert Witness(t, ViewOf(j[..k]), written[k], j[k]);
      BegunIs(j[..k], n);
      var m: nat :| m < k && j[..k][m] == MigrationStarted(n.index, n.attempt);
      assert Witness(t, ViewOf(j[..m]), written[m], j[m]) && j[m] == j[..k][m];
    }
  }

  lemma EffectsWereIntended(t: Terms, j: seq<Event>, written: seq<Course>, w: World, trace: seq<Emission>)
    requires SiteInv(t, j, written, w, trace)
    ensures EffectsIntended(trace)
  {
    hide ViewOf, WellFormed, Witnessed, JobsInv, LedgerInv, Lawful, Intended;
  }

  lemma JobsWereRead(t: Terms, j: seq<Event>, written: seq<Course>, w: World, trace: seq<Emission>)
    requires SiteInv(t, j, written, w, trace)
    ensures JobsRead(trace)
  {
    hide ViewOf, WellFormed, Witnessed, JobsInv, LedgerInv, JobAllowed;
  }

  /** Nor is a job of a refused attempt created or started before a decision to retry the migration. */
  lemma RefusedStartsNothing(t: Terms, j: seq<Event>, written: seq<Course>, w: World, trace: seq<Emission>,
                             e: Emission, m: nat) returns (d: nat)
    requires SiteInv(t, j, written, w, trace) && e in trace && m < |e.past|
    requires (e.op.JobCreate? || e.op.JobStart?) && e.op.name.MigrationJob?
    requires e.past[m].MigrationRefused? && e.past[m].index == e.op.name.index && e.past[m].at.Some?
    ensures m < d < |e.past| && e.past[d] == Decided(RetryMigration(e.op.name.index))
  {
    hide ViewOf, WellFormed, Witnessed, JobsInv, LedgerInv, RefusedNow;
    var p, i := e.past, e.op.name.index;
    assert p <= j && Lawful(ViewOf(p), e.view, e.op);
    if |p| < |j| {
      PrefixWellFormed(t.TheCase(), |t.pending|, j, |p|);
      assert j[..|p|] == p;
    } else {
      assert p == j;
    }
    if forall d :: m < d < |p| ==> p[d] != Decided(RetryMigration(i)) {
      RefusedUntilDecided(t.TheCase(), |t.pending|, p, m, i);
      assert false;
    }
    d :| m < d < |p| && p[d] == Decided(RetryMigration(i));
  }

  lemma BaselinePrecondition(t: Terms, j: seq<Event>)
    requires WellFormed(t.TheCase(), |t.pending|, j) && ViewOf(j).data.base.Some?
    ensures Precondition(t.TheCase(), ViewOf(j).data.base.value.scope)
  {
    FactsHold(t.TheCase(), |t.pending|, j);
  }

  // -- arbitrary histories -------------------------------------------------------------------------

  ghost predicate Safe(t: Terms, j: seq<Event>, written: seq<Course>, trace: seq<Emission>) {
    && LegacyStaysDown(j, trace) && SignalsBoundedBy(j, trace) && CandidateStartsSafe(trace)
    && ReconciliationExact(t, j, written) && MarkersSafe(j, written) && ResumesProved(j, written) && JobsRead(trace)
    && EffectsIntended(trace) && (t.kept ==> AttemptsRead(j, written))
    && (t.kept ==> JobsOnce(j, trace))
    && (t.kept && t.soleWriter ==> RetriesClean(t, j, written))
  }

  /** What every history keeps, read off its journal and what it sent out. */
  lemma SiteIsSafe(t: Terms, j: seq<Event>, written: seq<Course>, w: World, trace: seq<Emission>)
    requires SiteInv(t, j, written, w, trace)
    ensures Safe(t, j, written, trace)
  {
    SiteIsWitnessed(t, j, written, w, trace);
    hide SiteInv, LegacyStaysDown, SignalsBoundedBy, CandidateStartsSafe, ReconciliationExact, JobsOnce, RetriesClean,
      MarkersSafe, ResumesProved, JobsRead, EffectsIntended, AttemptsRead, Witnessed;
    LegacyStayedDown(t, j, written, w, trace);
    SignalsAreBounded(t, j, written, w, trace);
    CandidateStartsAreSafe(t, j, written, w, trace);
    ReconciliationIsExact(t, j, written);
    MarkersAreSafe(t, j, written);
    ResumesAreProved(t, j, written);
    JobsWereRead(t, j, written, w, trace);
    EffectsWereIntended(t, j, written, w, trace);
    if t.kept {
      AttemptsWereRead(t, j, written);
    }
    if t.kept {
      JobsAreOnce(t, j, written, w, trace);
      if t.soleWriter {
        RetriesWereClean(t, j, written, w, trace);
      }
    }
  }

  lemma SiteIsWitnessed(t: Terms, j: seq<Event>, written: seq<Course>, w: World, trace: seq<Emission>)
    requires SiteInv(t, j, written, w, trace)
    ensures WellFormed(t.TheCase(), |t.pending|, j) && Witnessed(t, j, written)
  {
    hide WellFormed, Witnessed, TraceInv;
  }

  lemma FreshSite(t: Terms, w: World)
    requires w.jobs == map[] && t.origin == w.db.ledger
    ensures SiteInv(t, [], [], w, [])
  {
  }

  /** One call of a history: the lengths of the journal before and after it, and what it carried. */
  datatype Call = Call(before: nat, after: nat, decision: Option<Decision>, confirmed: bool)

  /** What was journaled at k was called for. */
  ghost predicate CalledFor(j: seq<Event>, k: nat, c: Call) {
    && c.before <= k < c.after && k < |j|
    && (j[k].Decided? ==> c.decision == Some(j[k].decision))
    && (j[k].ResumeIntent? ==> c.confirmed)
    && (j[k] == Refusal(CandidateDecisionRequired) ==> c.decision != Some(RetryCandidate))
  }

  /** Every human decision in the journal was carried by the very call that journaled it, and so was the confirmation
      of a resume; and a decision was only demanded of a call that did not carry it. */
  ghost predicate AllCalledFor(j: seq<Event>, calls: seq<Call>) {
    forall k: nat :: k < |j| ==> SomeCallFor(j, k, calls)
  }

  ghost predicate SomeCallFor(j: seq<Event>, k: nat, calls: seq<Call>) {
    exists c <- calls :: CalledFor(j, k, c)
  }

  lemma CallAdds(found: seq<Event>, j: seq<Event>, calls: seq<Call>, decision: Option<Decision>, confirmed: bool)
    requires Carried(found, j, decision, confirmed) && AllCalledFor(found, calls)
    ensures AllCalledFor(j, calls + [Call(|found|, |j|, decision, confirmed)])
  {
    var call := Call(|found|, |j|, decision, confirmed);
    forall k: nat | k < |j|
      ensures SomeCallFor(j, k, calls + [call])
    {
      if k < |found| {
        assert SomeCallFor(found, k, calls);
        var c :| c in calls && CalledFor(found, k, c);
        assert found[k] == j[k] && c in calls + [call] && CalledFor(j, k, c);
      } else {
        assert Carries(decision, confirmed, j[k]);
        assert call in calls + [call] && CalledFor(j, k, call);
      }
    }
  }

  /** One process over what an earlier one left, making one call. */
  method OneProcess(earlier: Host) returns (host: Host, ghost call: Call)
    requires earlier.Inv()
    ensures host.terms == earlier.terms && host.Inv() && host.found == earlier.journal
    ensures call == Call(|earlier.journal|, |host.journal|, host.decision, host.confirmed)
  {
    hide SiteInv, ViewOf, Later, Carried, Containments, SentToCandidate;
    var resume, confirmed, polls: nat := *, *, *;
    var decision: Option<Decision>, until: Option<Stage> := *, *;
    host := new Host(earlier.terms, decision, confirmed, earlier.journal, earlier.world, earlier.written,
      earlier.trace);
    host.Environment();
    var transition := new Transition(host);
    if resume {
      var _ := transition.ResumeLegacy(confirmed, polls);
    } else {
      var _ := transition.Run(decision, until, polls);
    }
    call := Call(|earlier.journal|, |host.journal|, decision, confirmed);
  }

  /** Any history: as many processes as one likes, each a run or a resume with any arguments and decisions. */
  method AnyHistory(terms: Terms, world: World, processes: nat) returns (host: Host, ghost calls: seq<Call>)
    requires world.jobs == map[] && terms.origin == world.db.ledger
    ensures host.terms == terms && host.Inv() && Safe(terms, host.journal, host.written, host.trace)
    ensures AllCalledFor(host.journal, calls)
  {
    FreshSite(terms, world);
    hide SiteInv, ViewOf, Safe, CalledFor, Carried, Containments, SentToCandidate;
    host := new Host(terms, None, false, [], world, [], []);
    calls := [];
    for k := 0 to processes
      invariant host.terms == terms && host.Inv() && AllCalledFor(host.journal, calls)
    {
      ghost var found := host.journal;
      ghost var call;
      host, call := OneProcess(host);
      CallAdds(found, host.journal, calls, host.decision, host.confirmed);
      calls := calls + [call];
    }
    SiteIsSafe(terms, host.journal, host.written, host.world, host.trace);
  }
}
