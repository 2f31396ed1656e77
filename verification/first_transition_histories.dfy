/** Whole histories: any number of runs, containments and resumes, each killed anywhere or refused, with the
    environment moving in between; and what every one of them keeps. */
module FirstTransitionHistories {
  import opened Outcomes
  import opened Roles
  import opened FirstTransitionJournal
  import opened FirstTransitionTheorems
  import opened FirstTransitionSite
  import opened FirstTransitionInvariant
  import opened FirstTransitionPorts
  import opened FirstTransitionHostChecks
  import opened FirstTransitionHostContract
  import opened FirstTransitionOrchestrator

  ghost predicate ResumeOp(op: Op) {
    op.StartService? || op.EnableRestart? || op.OpenEntries?
  }

  /** Every SIGTERM was sent once, on a final snapshot with ingress blocked and that role's restart off, with
      a clean-exit receipt of every earlier role in the journal. */
  ghost predicate SignalsSafe(trace: seq<Emission>) {
    && (forall e <- trace :: e.op.SignalTerm? ==>
          && e.view.external && e.view.internal && !e.view.services.At(e.op.role).always
          && forall q: Role :: ContainRank(q) < ContainRank(e.op.role) ==> Term(q) in ViewOf(e.past).host.done)
    && (forall i, k :: 0 <= i < k < |trace| && trace[i].op.SignalTerm? ==> trace[k].op != trace[i].op)
  }

  /** A database read as the configured one, on the baseline, with nothing in progress. */
  ghost predicate OnBaseline(c: Config, db: Database) {
    && db.readOnly && db.identity == c.identity && db.ledger == c.plan.baseline && db.catalog == c.catalog
    && db.invalid == {} && db.builds == 0
  }

  /** A role stopped cleanly, its restart off. */
  ghost predicate StoppedCleanly(s: Service) {
    !s.running && !s.always && s.exit == 0
  }

  /** A role runs an execution that was started since the baseline and never restarted. */
  ghost predicate RunsFresh(s: Service, i: Init, r: Role) {
    s.running && s.restarts == 0 && s.started != i.started.At(r)
  }

  /** Where a role stood when a resume effect was sent. */
  ghost predicate StoodForResume(v: HostView, i: Init, s: Service, r: Role) {
    if ResumeRole(r) in v.done then RunsFresh(s, i, r) && s.always && s.started == v.done[ResumeRole(r)]
    else if ResumeRole(r) in v.intents && s.running then RunsFresh(s, i, r)
    else if ResumeRole(r) in v.intents then
      StoppedCleanly(s) && s.started == i.started.At(r) && s.restarts == i.restarts.At(r)
    else StoppedCleanly(s)
  }

  /** A role was seen started: its start is receipted, or it runs, or its start is not the baseline's. */
  ghost predicate SeenStarted(v: HostView, i: Init, s: Service, r: Role) {
    ResumeRole(r) in v.done || s.running || s.started != i.started.At(r)
  }

  /** A resume effect: decided, contained, before any marker, over a database proved afresh; each kind of
      effect with what its guard had to see. */
  ghost predicate ResumeSafe(c: Config, e: Emission) {
    var v := ViewOf(e.past).host;
    && (forall x <- e.past :: !x.DdlMarker?) && HostIntent(LegacyResume) in e.past
    && v.contained && v.init.Some? && e.proof.Some? && OnBaseline(c, e.proof.value)
    && e.view.writers == 0 && e.view.fingerprint == v.init.value.fingerprint
    && var i := v.init.value;
       && (forall q: Role :: StoodForResume(v, i, e.view.services.At(q), q))
       && (e.op.EnableRestart? ==> RunsFresh(e.view.services.At(e.op.role), i, e.op.role))
       && (e.op.OpenEntries? ==> forall q: Role :: ResumeRole(q) in v.done)
       && (e.op.StartService? ==>
             && (forall q: Role :: StartRank(q) < StartRank(e.op.role) ==> ResumeRole(q) in v.done)
             && e.view.external && e.view.internal && StoppedCleanly(e.view.services.At(e.op.role))
             && e.view.services.At(e.op.role).started == i.started.At(e.op.role)
             && ((exists q: Role :: SeenStarted(v, i, e.view.services.At(q), q))
                 || v.settled == Some(e.view.queue) || v.drift == Some(e.view.queue)))
       && (e.op == StartService(Backend) ==> v.settled == Some(e.view.queue) || v.drift == Some(e.view.queue))
  }

  /** Starts keep the start order, and no resume effect was ever sent in a history that reached the marker. */
  ghost predicate ResumesSafe(c: Config, j: seq<Event>, trace: seq<Emission>) {
    && (forall e <- trace :: ResumeOp(e.op) ==> ResumeSafe(c, e))
    && (forall i, k :: 0 <= i < k < |trace| && trace[i].op.StartService? && trace[k].op.StartService? ==>
          StartRank(trace[i].op.role) <= StartRank(trace[k].op.role))
    && ((exists x <- j :: x.DdlMarker?) ==> forall e <- trace :: !ResumeOp(e.op))
  }

  /** Next to its guard a start takes effect at most once for each role. */
  ghost predicate StartsOnce(trace: seq<Emission>) {
    forall i, k :: 0 <= i < k < |trace| && trace[i].took && trace[k].took && trace[i].op.StartService? ==>
      trace[i].op != trace[k].op
  }

  /** A database read as the configured one, with the baseline and the first n migrations applied and no other, nothing
      in progress, and nobody writing. */
  ghost predicate AtPrefix(c: Config, n: nat, db: Database) {
    && n <= |c.plan.pending| && db.readOnly && db.identity == c.identity
    && (forall x :: x in db.ledger <==>
          x in c.plan.baseline || exists k: nat :: k < n && c.plan.pending[k].name == x)
    && db.invalid == {} && db.builds == 0 && db.sessions == 0 && db.leases == 0
  }

  /** Every migration was handed to the executor at most once, in plan order, over the exact ledger prefix
      before it, after the marker. */
  ghost predicate MigrationsSafe(c: Config, trace: seq<Emission>) {
    && (forall e <- trace :: e.op.ApplyMigration? ==>
          && e.op.index < |c.plan.pending| && (exists x <- e.past :: x.DdlMarker?)
          && e.proof.Some? && AtPrefix(c, e.op.index, e.proof.value))
    && (forall i, k :: 0 <= i < k < |trace| && trace[i].op.ApplyMigration? && trace[k].op.ApplyMigration? ==>
          trace[i].op.index < trace[k].op.index)
  }

  /** The provider was asked for a backup at most once, and so were the candidate's creation and start. */
  ghost predicate OnceOnly(trace: seq<Emission>) {
    forall i, k :: 0 <= i < k < |trace| ==>
      && !(trace[i].op.AskBackup? && trace[k].op.AskBackup?)
      && !(trace[i].op.CreateCrew? && trace[k].op.CreateCrew?)
      && !(trace[i].op.StartCandidate? && trace[k].op.StartCandidate?)
  }

  /** The ledger is the baseline, the receipted prefix, and at most the one migration that is open. */
  ghost predicate LedgerSafe(c: Config, j: seq<Event>, w: World) {
    var n := |Applied(j)|;
    && n <= |c.plan.pending|
    && (|Attempted(j)| == n ==> w.db.ledger == c.plan.LedgerAfter(n) && w.applying == None)
    && (|Attempted(j)| != n ==>
          |Attempted(j)| == n + 1 <= |c.plan.pending|
          && (w.db.ledger == c.plan.LedgerAfter(n) || w.db.ledger == c.plan.LedgerAfter(n + 1)))
  }

  /** The host stood contained, with this fingerprint and queue. */
  ghost predicate StoodContained(w: World, fingerprint: int, queue: int) {
    && w.external && w.internal && (forall r: Role :: StoppedCleanly(w.services.At(r)))
    && w.writers == 0 && w.fingerprint == fingerprint && w.queue == queue
  }

  /** Between two moments the host was seen so, and after that the database quiet on the baseline. */
  ghost predicate SeenQuiet(c: Config, course: Course, from: nat, to: nat, fingerprint: int, queue: int) {
    exists a, b :: from <= a < b < to <= |course|
      && StoodContained(course[a], fingerprint, queue) && OnBaseline(c, course[b].db)
      && course[b].db.sessions == 0 && course[b].db.leases == 0
  }

  ghost predicate SeenQuietTwice(c: Config, course: Course, fingerprint: int, queue: int) {
    exists n: nat :: SeenQuiet(c, course, 0, n, fingerprint, queue)
                     && SeenQuiet(c, course, n, |course|, fingerprint, queue)
  }

  /** A backup of this very window: of the configured database on its baseline, restored, and rehearsed on a clone of
      another identity to which every pending migration was applied. */
  ghost predicate RehearsedBackup(c: Config, r: Receipt) {
    && r.plan == c.plan && r.identity == c.identity && r.baseline == c.plan.baseline && r.catalog == c.catalog
    && r.restored && r.clone.verified && r.clone.identity != c.identity && r.clone.clusterDdl
    && r.clone.sql == c.plan.pending && r.clone.applied == |c.plan.pending|
    && r.clone.finalLedger == |c.plan.baseline| + |c.plan.pending|
    && r.clone.concurrent == |set k | 0 <= k < |c.plan.pending| && c.plan.pending[k].concurrent|
  }

  /** The marker at m rests on one window: the last quiescence q, written after two quiet looks in one process;
      the only request k of the whole journal, bound to it; the receipt b of that request, which names the backup
      the marker is bound to; and one more look right before the marker, that showed the host with the fingerprint
      and the queue of the quiescence and the database still quiet on the baseline. */
  ghost predicate MarkerRests(c: Config, j: seq<Event>, written: seq<Course>, q: nat, k: nat, b: nat, m: nat) {
    && q < k < b < m < |j| == |written|
    && j[q].Quiescent? && j[k].BackupRequested? && j[b].BackupReceived? && j[m].DdlMarker?
    && (forall i :: 0 <= i < |j| ==> (j[i].BackupRequested? ==> i == k) && (j[i].BackupReceived? ==> i == b))
    && (forall i :: q < i < |j| ==> !j[i].Quiescent?)
    && j[k].request.config == c && j[k].request.quiescence == Quiescence(q + 1, j[q].fingerprint, j[q].queue)
    && j[b].receipt.request == Some(j[k].request) && RehearsedBackup(c, j[b].receipt)
    && j[b].receipt.id == Some(j[m].backup)
    && SeenQuietTwice(c, written[q], j[q].fingerprint, j[q].queue)
    && SeenQuiet(c, written[m], 0, |written[m]|, j[q].fingerprint, j[q].queue)
  }

  ghost predicate MarkersSafe(c: Config, j: seq<Event>, written: seq<Course>) {
    forall m: nat :: m < |j| && j[m].DdlMarker? ==> exists q, k, b :: MarkerRests(c, j, written, q, k, b, m)
  }

  /** The host stood contained on the fingerprint of its baseline and the settled queue. */
  ghost predicate StoodAsSettled(v: HostView, w: World) {
    v.init.Some? && v.settled.Some? && StoodContained(w, v.init.value.fingerprint, v.settled.value)
  }

  /** The project has the four containers that were created. */
  ghost predicate HasCrew(w: World, crew: PerRole<Created>) {
    forall r: Role :: r in w.project && w.project[r].id == crew.At(r).id
  }

  /** A pinned container that was built and never started, its restart off. */
  ghost predicate NeverStarted(x: Container) {
    x.pinned && x.status == Built && x.started == 0 && x.restarts == 0 && !x.always
  }

  /** The consumers were never started; the backend neither, or it runs on this start without a restart. */
  ghost predicate CrewHeld(w: World, crew: PerRole<Created>, backend: Option<nat>) {
    && HasCrew(w, crew)
    && (forall r: Role :: r != Backend || backend.None? ==> NeverStarted(w.project[r]))
    && (backend.Some? ==>
          var b := w.project[Backend];
          b.pinned && b.status == Up && b.restarts == 0 && b.started == backend.value != 0 && !b.always)
  }

  /** Between two moments the crew was seen so, and after that the host contained. */
  ghost predicate SeenHeld(v: View, backend: Option<nat>, course: Course, from: nat, to: nat) {
    && v.steps.crew.Some?
    && exists a, b :: from <= a < b < to <= |course|
         && CrewHeld(course[a], v.steps.crew.value, backend) && StoodAsSettled(v.host, course[b])
  }

  /** What was looked at between the previous event and the intent of a step whose effect was sent: before a migration
      the database at its prefix and then the host; before the creation the host and then an empty project; before the
      start the created project and nothing else, and the crew held and then the host. */
  ghost predicate LookedBefore(c: Config, j: seq<Event>, written: seq<Course>, e: Emission) {
    e.op.ApplyMigration? || e.op.CreateCrew? || e.op.StartCandidate? ==>
      && 0 < |e.past| <= |j| == |written|
      && var k := |e.past| - 1;
         var v, course := ViewOf(j[..k]), written[k];
         && (e.op.ApplyMigration? ==>
               exists a, b :: 0 <= a < b < |course|
                 && AtPrefix(c, e.op.index, course[a].db) && StoodAsSettled(v.host, course[b]))
         && (e.op.CreateCrew? ==>
               exists a, b :: 0 <= a < b < |course|
                 && StoodAsSettled(v.host, course[a]) && course[b].project == map[] && course[b].foreign == 0)
         && (e.op.StartCandidate? ==>
               && SeenHeld(v, None, course, 0, |course|)
               && exists a :: 0 <= a < |course| && course[a].foreign == 0 && HasCrew(course[a], v.steps.crew.value))
  }

  ghost predicate LooksSafe(c: Config, j: seq<Event>, written: seq<Course>, trace: seq<Emission>) {
    forall e <- trace :: LookedBefore(c, j, written, e)
  }

  /** What had been read when an event was written, the last read being w: the baseline over a healthy legacy, the
      resume decided over a stopped one with the queue accounted for, every receipt for the state it is of, the
      containment and the resume over a whole host, the migrated ledger with its catalog, the candidate's creation and
      start, and the end over the crew seen held twice. */
  ghost predicate EventShown(c: Config, v: View, course: Course, e: Event) {
    && course != []
    && var w, i := course[|course| - 1], v.host.init;
       match e
       case HostInit(f, started, restarts) =>
         w.writers == 0 && w.fingerprint == f
         && forall r: Role ::
              && w.services.At(r).running && w.services.At(r).always
              && w.services.At(r).started == started.At(r) && w.services.At(r).restarts == restarts.At(r)
       case HostIntent(LegacyResume) =>
         && (forall r: Role :: StoppedCleanly(w.services.At(r)))
         && (v.host.settled == Some(w.queue) || v.host.drift == Some(w.queue))
       case HostDone(Ingress, _) => w.external && w.internal
       case HostDone(RestartNo(r), _) => w.external && w.internal && !w.services.At(r).always
       case HostDone(Term(r), _) => w.external && w.internal && StoppedCleanly(w.services.At(r))
       case HostDone(ResumeRole(r), f) =>
         i.Some? && RunsFresh(w.services.At(r), i.value, r) && w.services.At(r).always && w.services.At(r).started == f
       case HostDone(OpenIngress, _) => !w.external && !w.internal
       case HostSettled(q) =>
         w.external && w.internal && w.queue == q && forall r: Role :: StoppedCleanly(w.services.At(r))
       case HostContained(f, _) => StoodAsSettled(v.host, w) && w.fingerprint == f
       case DriftAccepted(_, q) => w.queue == q
       case HostResumed =>
         && i.Some? && !w.external && !w.internal
         && forall r: Role :: RunsFresh(w.services.At(r), i.value, r) && w.services.At(r).always
       case Baseline => OnBaseline(c, w.db)
       case Migrated(g) =>
         && w.db.readOnly && w.db.identity == c.identity && w.db.catalog == g
         && forall x :: x in w.db.ledger <==> x in c.plan.baseline || exists m <- c.plan.pending :: m.name == x
       case CandidateCreated(crew) =>
         w.foreign == 0 && HasCrew(w, crew) && forall r: Role :: NeverStarted(w.project[r])
       case BackendStarted(f) =>
         && v.steps.crew.Some? && HasCrew(w, v.steps.crew.value) && (forall r: Role :: w.project[r].pinned)
         && w.project[Backend].status == Up && w.project[Backend].restarts == 0 && w.project[Backend].started == f
       case Complete =>
         exists m: nat :: SeenHeld(v, v.steps.backendStart, course, 0, m)
                          && SeenHeld(v, v.steps.backendStart, course, m, |course|)
       case _ => true
  }

  ghost predicate EventsShown(c: Config, j: seq<Event>, written: seq<Course>) {
    |written| == |j| && forall k :: 0 <= k < |j| ==> EventShown(c, ViewOf(j[..k]), written[k], j[k])
  }

  /** A migration was receipted only after its executor exited zero, and a failure recorded of it only for the exit and
      the database that explain it. */
  ghost predicate OutcomesSafe(c: Config, j: seq<Event>, written: seq<Course>, trace: seq<Emission>) {
    && |written| == |j|
    && (forall k, i :: 0 <= k < |j| && j[k] == Done(Apply(i)) ==>
          exists m <- trace :: m.op == ApplyMigration(i) && m.past <= j[..k] && m.exit == Some(0))
    && (forall k :: 0 <= k < |j| && j[k].StepFailed? ==>
          && written[k] != []
          && exists m <- trace :: m.op == ApplyMigration(j[k].index) && m.past <= j[..k]
               && Explains(c, j[k].index, m.exit, written[k][|written[k]| - 1].db, j[k].code, j[k].definite))
  }

  ghost predicate Safe(t: Terms, j: seq<Event>, written: seq<Course>, w: World, trace: seq<Emission>) {
    && OutcomesSafe(t.config, j, written, trace)
    && EventsShown(t.config, j, written)
    && MarkersSafe(t.config, j, written) && LooksSafe(t.config, j, written, trace)
    && SignalsSafe(trace) && ResumesSafe(t.config, j, trace) && MigrationsSafe(t.config, trace) && OnceOnly(trace)
    && (t.adjacent ==> StartsOnce(trace))
    && (t.soleWriter && t.origin.db.ledger == t.config.plan.baseline ==> LedgerSafe(t.config, j, w))
  }

  // -- a journal only grows --------------------------------------------------------------------

  ghost predicate Grows(v: View, v': View) {
    && v.host.intents <= v'.host.intents && v.host.done.Keys <= v'.host.done.Keys
    && v.steps.intents <= v'.steps.intents && v.steps.done <= v'.steps.done
    && (Marked(v) ==> Marked(v'))
  }

  lemma {:induction false} ViewGrows(p: seq<Event>, j: seq<Event>)
    requires p <= j
    ensures Grows(ViewOf(p), ViewOf(j))
    decreases |j|
  {
    if p != j {
      ViewGrows(p, j[..|j| - 1]);
    }
  }

  // -- the safety of a site ---------------------------------------------------------------------

  lemma SignalsAreSafe(t: Terms, j: seq<Event>, w: World, trace: seq<Emission>)
    requires SiteInv(t, j, w, trace)
    ensures SignalsSafe(trace) && OnceOnly(trace)
  {
    hide ViewOf, ResumeLawful, WellFormed, WorldInv;
  }

  /** The start order of two emissions follows from the receipts the later one required. */
  lemma StartsFollowOrder(c: Config, e: Emission, f: Emission)
    requires e.past <= f.past && Lawful(c, e) && Lawful(c, f) && e.op.StartService? && f.op.StartService?
    ensures StartRank(e.op.role) <= StartRank(f.op.role)
  {
    ViewGrows(e.past, f.past);
    hide ViewOf, ResumeLawful;
  }

  lemma MigrationsFollowOrder(c: Config, e: Emission, f: Emission)
    requires e.past <= f.past && Lawful(c, e) && Lawful(c, f) && e.op.ApplyMigration? && f.op.ApplyMigration?
    requires e.op != f.op
    ensures e.op.index < f.op.index
  {
    ViewGrows(e.past, f.past);
    hide ViewOf, ResumeLawful;
  }

  lemma LawfulResumeIsSafe(c: Config, e: Emission)
    requires Lawful(c, e) && ResumeOp(e.op)
    ensures ResumeSafe(c, e) && Resuming(ViewOf(e.past))
  {
    MarkerIsIn(e.past);
    HostIntentsAre(e.past, LegacyResume);
    hide ViewOf;
    var v := ViewOf(e.past);
    forall q: Role
      ensures StoodForResume(v.host, v.host.init.value, e.view.services.At(q), q)
    {
      assert RolePhase(v, e.view, q);
    }
    if e.op.StartService? && StartObserved(v, e.view) {
      var q: Role :| ResumeRole(q) in v.host.done || Moved(v, e.view, q);
      assert SeenStarted(v.host, v.host.init.value, e.view.services.At(q), q);
    }
  }

  lemma {:induction false} MarkerIsIn(j: seq<Event>)
    ensures Marked(ViewOf(j)) <==> exists x <- j :: x.DdlMarker?
  {
    if j != [] {
      var p, e := j[..|j| - 1], j[|j| - 1];
      MarkerIsIn(p);
      assert j == p + [e];
      if Marked(ViewOf(p)) {
        var x :| x in p && x.DdlMarker?;
        assert x in j;
      }
      if e.DdlMarker? { assert e in j; }
    }
  }

  lemma ResumesAreSafe(t: Terms, j: seq<Event>, w: World, trace: seq<Emission>)
    requires SiteInv(t, j, w, trace)
    ensures ResumesSafe(t.config, j, trace)
  {
    hide ViewOf, WellFormed, WorldInv, DdlFree, Lawful, ResumeSafe;
    MarkerExcludesResume(t, j, w, trace);
    MarkerIsIn(j);
    forall e <- trace | ResumeOp(e.op)
      ensures ResumeSafe(t.config, e) && !Marked(ViewOf(j))
    {
      LawfulResumeIsSafe(t.config, e);
      ViewGrows(e.past, j);
    }
    forall i, k | 0 <= i < k < |trace| && trace[i].op.StartService? && trace[k].op.StartService?
      ensures StartRank(trace[i].op.role) <= StartRank(trace[k].op.role)
    {
      StartsFollowOrder(t.config, trace[i], trace[k]);
    }
  }

  lemma PrefixIs(c: Config, n: nat, db: Database)
    requires n <= |c.plan.pending| && Same(c, db) && db.ledger == c.plan.LedgerAfter(n)
    requires db.invalid == {} && db.builds == 0 && Quiet(db)
    ensures AtPrefix(c, n, db)
  {
    forall x
      ensures x in db.ledger <==> x in c.plan.baseline || exists k: nat :: k < n && c.plan.pending[k].name == x
    {
      var applied := set i | 0 <= i < n :: c.plan.pending[i].name;
      assert x in db.ledger <==> x in c.plan.baseline || x in applied;
      if k: nat :| k < n && c.plan.pending[k].name == x { assert c.plan.pending[k].name in applied; }
    }
  }

  lemma LawfulMigrationIsSafe(c: Config, e: Emission)
    requires Lawful(c, e) && e.op.ApplyMigration?
    ensures e.op.index < |c.plan.pending| && (exists x <- e.past :: x.DdlMarker?)
    ensures e.proof.Some? && AtPrefix(c, e.op.index, e.proof.value)
  {
    MarkerIsIn(e.past);
    PrefixIs(c, e.op.index, e.proof.value);
  }

  lemma MigrationsAreSafe(t: Terms, j: seq<Event>, w: World, trace: seq<Emission>)
    requires SiteInv(t, j, w, trace)
    ensures MigrationsSafe(t.config, trace)
  {
    hide ViewOf, WellFormed, WorldInv, Lawful, AtPrefix;
    forall e <- trace | e.op.ApplyMigration?
      ensures e.op.index < |t.config.plan.pending| && (exists x <- e.past :: x.DdlMarker?)
      ensures e.proof.Some? && AtPrefix(t.config, e.op.index, e.proof.value)
    {
      LawfulMigrationIsSafe(t.config, e);
    }
    forall i, k | 0 <= i < k < |trace| && trace[i].op.ApplyMigration? && trace[k].op.ApplyMigration?
      ensures trace[i].op.index < trace[k].op.index
    {
      MigrationsFollowOrder(t.config, trace[i], trace[k]);
    }
  }

  lemma LedgerIsSafe(t: Terms, j: seq<Event>, w: World, trace: seq<Emission>)
    requires SiteInv(t, j, w, trace) && t.soleWriter && t.origin.db.ledger == t.config.plan.baseline
    ensures LedgerSafe(t.config, j, w)
  {
    MigrationsInOrder(t.config, j);
    hide ViewOf, WellFormed, Applied, Attempted;
  }

  lemma StartsTakeEffectOnce(t: Terms, j: seq<Event>, w: World, trace: seq<Emission>)
    requires SiteInv(t, j, w, trace) && t.adjacent
    ensures StartsOnce(trace)
  {
    hide ViewOf, WellFormed, Lawful;
  }

  lemma SeenWith(c: Config, v: View, course: Course, from: nat, to: nat, fingerprint: int, queue: int)
    requires QuietBetween(c, v, course, from, to)
    requires v.host.init.Some? ==> v.host.init.value.fingerprint == fingerprint
    requires v.host.settled.Some? ==> v.host.settled.value == queue
    ensures SeenQuiet(c, course, from, to, fingerprint, queue)
  {
    var a, b :| from <= a < b < to <= |course|
      && ContainedNow(v, course[a]) && DdlFree(c, course[b].db) && Quiet(course[b].db);
    assert StoodContained(course[a], fingerprint, queue);
  }

  /** The irrevocable marker rests on one window, and on what was looked at in it. */
  lemma MarkerRestsOnOneBackup(t: Terms, j: seq<Event>, written: seq<Course>, m: nat) returns (q: nat, k: nat, b: nat)
    requires WellFormed(t.config, j) && Witnessed(t, j, written) && m < |j| && j[m].DdlMarker?
    ensures MarkerRests(t.config, j, written, q, k, b, m)
  {
    hide WellFormed, ViewOf, Justified, ValidReceipt, RehearsedBackup, QuietBetween, SeenQuiet, Fits;
    var c := t.config;
    q, k, b := MarkerIsBound(c, j, m);
    PrefixWellFormed(c, j, m);
    var p := j[..m + 1];
    assert p[m] == j[m] && p == j[..m] + [j[m]];
    var q', k', b' := MarkerIsBound(c, p, m);
    assert p[q'] == j[q'] && p[k'] == j[k'] && p[b'] == j[b'];
    ViewAppend(j[..m], j[m]);
    assert Witness(t, ViewOf(j[..m]), written[m], j[m]);
    SeenWith(c, ViewOf(j[..m]), written[m], 0, |written[m]|, j[q].fingerprint, j[q].queue);
    QuiescenceSeen(t, j, written, q);
    ReceiptIsRehearsed(c, j[b].receipt);
  }

  lemma {:induction false} ConcurrentCountIs(p: Plan, n: nat)
    requires n <= |p.pending|
    ensures p.ConcurrentCount(n) == |set k | 0 <= k < n && p.pending[k].concurrent|
  {
    var now := set k | 0 <= k < n && p.pending[k].concurrent;
    if n == 0 {
      assert now == {};
    } else {
      ConcurrentCountIs(p, n - 1);
      var before := set k | 0 <= k < n - 1 && p.pending[k].concurrent;
      assert now == if p.pending[n - 1].concurrent then before + {n - 1} else before;
    }
  }

  lemma ReceiptIsRehearsed(c: Config, r: Receipt)
    requires ValidReceipt(c, r)
    ensures RehearsedBackup(c, r)
  {
    ConcurrentCountIs(c.plan, |c.plan.pending|);
  }

  lemma QuiescenceSeen(t: Terms, j: seq<Event>, written: seq<Course>, q: nat)
    requires WellFormed(t.config, j) && Witnessed(t, j, written) && q < |j| && j[q].Quiescent?
    ensures SeenQuietTwice(t.config, written[q], j[q].fingerprint, j[q].queue)
  {
    hide WellFormed, ViewOf, QuietBetween, SeenQuiet, Fits;
    var c, v, course := t.config, ViewOf(j[..q]), written[q];
    PrefixWellFormed(c, j, q);
    assert Witness(t, v, course, j[q]);
    var n: nat :| QuietBetween(c, v, course, 0, n) && QuietBetween(c, v, course, n, |course|);
    SeenWith(c, v, course, 0, n, j[q].fingerprint, j[q].queue);
    SeenWith(c, v, course, n, |course|, j[q].fingerprint, j[q].queue);
  }

  lemma MarkersAreSafe(t: Terms, j: seq<Event>, written: seq<Course>)
    requires WellFormed(t.config, j) && Witnessed(t, j, written)
    ensures MarkersSafe(t.config, j, written)
  {
    hide WellFormed, Witnessed, MarkerRests;
    forall m: nat | m < |j| && j[m].DdlMarker?
      ensures exists q, k, b :: MarkerRests(t.config, j, written, q, k, b, m)
    {
      var q, k, b := MarkerRestsOnOneBackup(t, j, written, m);
    }
  }

  lemma SettledIs(v: View, w: World)
    requires ContainedNow(v, w)
    ensures StoodAsSettled(v.host, w)
  {
  }

  lemma CrewHeldIs(w: World, crew: PerRole<Created>, backend: Option<nat>)
    requires CandidateStands(w, crew, backend)
    ensures CrewHeld(w, crew, backend)
  {
  }

  lemma HeldIs(v: View, backend: Option<nat>, course: Course, from: nat, to: nat)
    requires HeldBetween(v, backend, course, from, to)
    ensures SeenHeld(v, backend, course, from, to)
  {
    hide CandidateStands, CrewHeld, ContainedNow, StoodAsSettled;
    var a, b :| from <= a < b < to <= |course|
      && CandidateStands(course[a], v.steps.crew.value, backend) && ContainedNow(v, course[b]);
    CrewHeldIs(course[a], v.steps.crew.value, backend);
    SettledIs(v, course[b]);
  }

  lemma ReadyIs(c: Config, v: View, i: nat, course: Course)
    requires ReadyLook(c, v, i, course)
    ensures exists a, b :: 0 <= a < b < |course| && AtPrefix(c, i, course[a].db) && StoodAsSettled(v.host, course[b])
  {
    hide AtPrefix, ContainedNow, StoodAsSettled;
    var a, b :| 0 <= a < b < |course| && ReadyFor(c, i, course[a].db) && ContainedNow(v, course[b]);
    PrefixIs(c, i, course[a].db);
    SettledIs(v, course[b]);
  }

  lemma EmptyIs(v: View, course: Course)
    requires EmptyLook(v, course)
    ensures exists a, b :: 0 <= a < b < |course|
              && StoodAsSettled(v.host, course[a]) && course[b].project == map[] && course[b].foreign == 0
  {
    hide ContainedNow, StoodAsSettled;
    var a, b :| 0 <= a < b < |course|
      && ContainedNow(v, course[a]) && course[b].project == map[] && course[b].foreign == 0;
    SettledIs(v, course[a]);
  }

  /** What a step's effect rests on was looked at in the process that sent it, right before its intent. */
  lemma LooksAreSafe(t: Terms, j: seq<Event>, written: seq<Course>, w: World, trace: seq<Emission>)
    requires SiteInv(t, j, w, trace) && Witnessed(t, j, written)
    ensures LooksSafe(t.config, j, written, trace)
  {
    hide ViewOf, WellFormed, WorldInv, Fits, ReadyLook, EmptyLook, HeldBetween, SeenHeld, ResumeLawful, AtPrefix,
      StoodAsSettled;
    forall e <- trace
      ensures LookedBefore(t.config, j, written, e)
    {
      assert Lawful(t.config, e) && e.past <= j;
      if e.op.ApplyMigration? || e.op.CreateCrew? || e.op.StartCandidate? {
        IntentSent(t.config, j, e);
        var v, course := ViewOf(j[..|e.past| - 1]), written[|e.past| - 1];
        assert Witness(t, v, course, j[|e.past| - 1]);
        if e.op.ApplyMigration? { ReadyIs(t.config, v, e.op.index, course); }
        if e.op.CreateCrew? { EmptyIs(v, course); }
        if e.op.StartCandidate? { HeldIs(v, None, course, 0, |course|); }
      }
    }
  }

  lemma WholeLedgerIs(c: Config, db: Database)
    requires db.ledger == c.plan.LedgerAfter(|c.plan.pending|)
    ensures forall x :: x in db.ledger <==> x in c.plan.baseline || exists m <- c.plan.pending :: m.name == x
  {
    var applied := set i | 0 <= i < |c.plan.pending| :: c.plan.pending[i].name;
    forall x
      ensures x in db.ledger <==> x in c.plan.baseline || exists m <- c.plan.pending :: m.name == x
    {
      if m :| m in c.plan.pending && m.name == x {
        var i :| 0 <= i < |c.plan.pending| && c.plan.pending[i] == m;
        assert c.plan.pending[i].name in applied;
      }
      assert x in db.ledger <==> x in c.plan.baseline || x in applied;
    }
  }

  lemma EventIsShown(t: Terms, v: View, course: Course, e: Event)
    requires Witness(t, v, course, e)
    ensures EventShown(t.config, v, course, e)
  {
    hide HeldBetween, SeenHeld, QuietBetween, ReadyLook, EmptyLook, CrewLook, Explains, StoodAsSettled;
    var w := course[|course| - 1];
    if e.HostContained? { SettledIs(v, w); }
    if e.Migrated? { WholeLedgerIs(t.config, w.db); }
    if e.Complete? {
      var m: nat :| HeldBetween(v, v.steps.backendStart, course, 0, m)
        && HeldBetween(v, v.steps.backendStart, course, m, |course|);
      HeldIs(v, v.steps.backendStart, course, 0, m);
      HeldIs(v, v.steps.backendStart, course, m, |course|);
    }
  }

  /** Every event was written over what it says was read. */
  lemma EventsAreShown(t: Terms, j: seq<Event>, written: seq<Course>)
    requires Witnessed(t, j, written)
    ensures EventsShown(t.config, j, written)
  {
    hide Witness, EventShown, ViewOf;
    forall k | 0 <= k < |j|
      ensures EventShown(t.config, ViewOf(j[..k]), written[k], j[k])
    {
      EventIsShown(t, ViewOf(j[..k]), written[k], j[k]);
    }
  }

  /** No timeout and no failure exit ends in a receipt. */
  lemma OutcomesAreSafe(c: Config, j: seq<Event>, written: seq<Course>, trace: seq<Emission>)
    requires Backed(c, j, written, trace)
    ensures OutcomesSafe(c, j, written, trace)
  {
    hide Explains;
    forall k, i | 0 <= k < |j| && j[k] == Done(Apply(i))
      ensures exists m <- trace :: m.op == ApplyMigration(i) && m.past <= j[..k] && m.exit == Some(0)
    {
      assert Backs(c, trace, j[..k], written[k], j[k]);
      var m :| m in trace && Ran(m, i, j[..k]) && m.exit == Some(0);
    }
    forall k | 0 <= k < |j| && j[k].StepFailed?
      ensures written[k] != []
      ensures exists m <- trace :: m.op == ApplyMigration(j[k].index) && m.past <= j[..k]
                && Explains(c, j[k].index, m.exit, written[k][|written[k]| - 1].db, j[k].code, j[k].definite)
    {
      assert Backs(c, trace, j[..k], written[k], j[k]);
      var m :| m in trace && Ran(m, j[k].index, j[..k])
        && Explains(c, j[k].index, m.exit, written[k][|written[k]| - 1].db, j[k].code, j[k].definite);
    }
  }

  lemma IntentSent(c: Config, j: seq<Event>, e: Emission)
    requires Lawful(c, e) && e.past <= j && (e.op.ApplyMigration? || e.op.CreateCrew? || e.op.StartCandidate?)
    ensures e.past != []
    ensures j[|e.past| - 1] == Intent(if e.op.ApplyMigration? then Apply(e.op.index)
                                      else if e.op.CreateCrew? then CreateHeld else StartBackend)
  {
    assert ViewOf([]) == EMPTY;
    hide ViewOf;
  }

  /** What every history keeps, read off its journal, what was looked at, its world and what it sent out. */
  lemma SiteIsSafe(t: Terms, j: seq<Event>, written: seq<Course>, w: World, trace: seq<Emission>)
    requires SiteInv(t, j, w, trace) && Witnessed(t, j, written) && Backed(t.config, j, written, trace)
    ensures Safe(t, j, written, w, trace)
  {
    SiteIsWellFormed(t, j, w, trace);
    hide SiteInv, SignalsSafe, ResumesSafe, MigrationsSafe, OnceOnly, StartsOnce, LedgerSafe, MarkersSafe, LooksSafe,
      Witnessed, Backed, OutcomesSafe, EventsShown;
    EventsAreShown(t, j, written);
    OutcomesAreSafe(t.config, j, written, trace);
    MarkersAreSafe(t, j, written);
    LooksAreSafe(t, j, written, w, trace);
    SignalsAreSafe(t, j, w, trace);
    ResumesAreSafe(t, j, w, trace);
    MigrationsAreSafe(t, j, w, trace);
    if t.adjacent {
      StartsTakeEffectOnce(t, j, w, trace);
    }
    if t.soleWriter && t.origin.db.ledger == t.config.plan.baseline {
      LedgerIsSafe(t, j, w, trace);
    }
  }

  lemma SiteIsWellFormed(t: Terms, j: seq<Event>, w: World, trace: seq<Emission>)
    requires SiteInv(t, j, w, trace)
    ensures WellFormed(t.config, j)
  {
    hide WellFormed, TraceInv, WorldInv;
  }

  // -- arbitrary histories ------------------------------------------------------------------------

  /** A site before its first run. */
  ghost predicate Fresh(t: Terms) {
    && t.Valid() && t.config.plan.Valid() && t.origin.Clocked() && t.origin.applying == None
    && (t.faithful ==> Healthy(t.config, t.origin))
  }

  lemma FreshSite(t: Terms)
    requires Fresh(t)
    ensures SiteInv(t, [], t.origin, [])
  {
  }

  /** One call of a history: the lengths of the journal before and after it and, of a resume, what it carried. */
  datatype Call = Call(before: nat, after: nat, confirmation: Option<int>)

  /** The intent to resume the legacy at k was written by a call that carried the fingerprint journaled before it. */
  ghost predicate ConfirmedBy(j: seq<Event>, k: nat, c: Call) {
    && c.before <= k < c.after && c.confirmation.Some?
    && exists m: nat :: m < c.before && m < |j| && j[m].HostInit? && j[m].fingerprint == c.confirmation.value
  }

  ghost predicate ResumesConfirmed(j: seq<Event>, calls: seq<Call>) {
    forall k: nat :: k < |j| && j[k] == HostIntent(LegacyResume) ==> exists c <- calls :: ConfirmedBy(j, k, c)
  }

  lemma {:induction false} InitIs(j: seq<Event>)
    ensures ViewOf(j).host.init.Some? ==>
              exists m: nat :: m < |j| && j[m].HostInit? && j[m].fingerprint == ViewOf(j).host.init.value.fingerprint
  {
    if j != [] {
      var p := j[..|j| - 1];
      InitIs(p);
      if j[|j| - 1].HostInit? {
        assert j[|j| - 1].fingerprint == ViewOf(j).host.init.value.fingerprint;
      } else if ViewOf(p).host.init.Some? {
        var m: nat :| m < |p| && p[m].HostInit? && p[m].fingerprint == ViewOf(p).host.init.value.fingerprint;
        assert j[m] == p[m];
      }
    }
  }

  /** The intent to resume is written once. */
  lemma ResumeIntentOnce(c: Config, j: seq<Event>, i: nat, k: nat)
    requires WellFormed(c, j) && i < k < |j|
    ensures !(j[i] == HostIntent(LegacyResume) && j[k] == HostIntent(LegacyResume))
  {
    PrefixWellFormed(c, j, k);
    HostIntentsAre(j[..k], LegacyResume);
    assert j[..k][i] == j[i];
  }

  /** One more call keeps it: when it wrote the intent it carried the fingerprint. */
  lemma CallConfirms(c: Config, p: seq<Event>, j: seq<Event>, calls: seq<Call>, confirmation: Option<int>)
    requires WellFormed(c, j) && p <= j && ResumesConfirmed(p, calls)
    requires Resuming(ViewOf(j)) && !Resuming(ViewOf(p)) ==>
               confirmation.Some? && ViewOf(p).host.init.Some?
               && confirmation.value == ViewOf(p).host.init.value.fingerprint
    ensures ResumesConfirmed(j, calls + [Call(|p|, |j|, confirmation)])
  {
    hide ViewOf, WellFormed;
    var call := Call(|p|, |j|, confirmation);
    forall k: nat | k < |j| && j[k] == HostIntent(LegacyResume)
      ensures exists c <- calls + [call] :: ConfirmedBy(j, k, c)
    {
      HostIntentsAre(j, LegacyResume);
      HostIntentsAre(p, LegacyResume);
      if k < |p| {
        assert p[k] == j[k];
        var earlier :| earlier in calls && ConfirmedBy(p, k, earlier);
        assert ConfirmedBy(j, k, earlier) && earlier in calls + [call];
      } else {
        assert HostIntent(LegacyResume) !in p by {
          if HostIntent(LegacyResume) in p {
            var i: nat :| i < |p| && p[i] == HostIntent(LegacyResume);
            ResumeIntentOnce(c, j, i, k);
          }
        }
        assert HostIntent(LegacyResume) in j;
        InitIs(p);
        assert call in calls + [call] && ConfirmedBy(j, k, call);
      }
    }
  }

  /** Any history of a site: as many processes as one likes, each running, containing or resuming with any
      arguments, ended by a refusal, a kill or completion. */
  method AnyHistory(terms: Terms, processes: nat) returns (site: Site, ghost calls: seq<Call>)
    requires Fresh(terms)
    ensures site.terms == terms && site.Inv() && Safe(terms, site.journal, site.written, site.world, site.trace)
    ensures ResumesConfirmed(site.journal, calls)
  {
    site := new Site(terms, false, [], [], terms.origin, []);
    calls := [];
    FreshSite(terms);
    hide SiteInv, Witnessed, Backed, Standing, ViewOf, Safe, ResumesConfirmed;
    NothingConfirmed();
    for i := 0 to processes
      invariant site.terms == terms && site.Inv() && ResumesConfirmed(site.journal, calls)
    {
      ghost var found := site.journal;
      ghost var confirmation;
      site, confirmation := OneProcess(site);
      SiteIsWellFormed(terms, site.journal, site.world, site.trace);
      CallConfirms(terms.config, found, site.journal, calls, confirmation);
      calls := calls + [Call(|found|, |site.journal|, confirmation)];
    }
    SiteIsSafe(site.terms, site.journal, site.written, site.world, site.trace);
  }

  lemma NothingConfirmed()
    ensures ResumesConfirmed([], [])
  {
  }

  /** One process over what an earlier one left, making one call. */
  method OneProcess(earlier: Site) returns (site: Site, ghost confirmation: Option<int>)
    requires earlier.Inv()
    ensures site.terms == earlier.terms && site.Inv() && earlier.journal <= site.journal
    ensures Resuming(site.View()) && !Resuming(earlier.View()) ==>
              confirmation.Some? && earlier.View().host.init.Some?
              && confirmation.value == earlier.View().host.init.value.fingerprint
  {
    hide SiteInv, Witnessed, Backed, ViewOf, OnlyResumed, OnlyContained;
    site := new Site(earlier.terms, false, earlier.journal, earlier.written, earlier.world, earlier.trace);
    confirmation := None;
    site.Environment();
    SiteFacts(site.terms, site.journal, site.world, site.trace);
    var host := new ObservedHostContract(site);
    var transition := new FirstTransition(host);
    var choice: nat := *;
    if choice == 0 {
      var inputs: Config := *;
      if site.View().window.init.None? { inputs := site.terms.config; }
      var _, _ := transition.Run(inputs);
    } else if choice == 1 {
      var token: int, drift: bool := *, *;
      confirmation := Some(token);
      var _ := transition.ResumeLegacy(token, drift);
    } else if choice == 2 {
      var token: int, expected: Option<int>, drift: bool := *, *, *;
      confirmation := Some(token);
      var _ := host.ResumeLegacy(token, expected, drift);
    } else {
      ghost var v := site.View();
      var _ := host.Contain();
      OnlyContainedMeans(v, site.View());
    }
  }
}
