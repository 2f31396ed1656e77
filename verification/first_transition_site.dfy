/** The host, the legacy database and the candidate project as the controllers observe and change
    them, with an environment that may do as it likes within the named assumptions of a site. */
module FirstTransitionSite {
  import opened Outcomes
  import opened Roles
  import opened FirstTransitionJournal

  datatype Service = Service(running: bool, always: bool, started: nat, restarts: nat, exit: int)

  datatype Database = Database(identity: int, readOnly: bool, ledger: set<Name>, catalog: int, invalid: set<Index>,
                               builds: nat, indexes: set<Index>, sessions: nat, leases: nat)

  datatype Status = Built | Up | Exited

  /** A candidate container; start stamp 0 means never started. `pinned` says that image, revision,
      project, name, network and gates are the configured ones. */
  datatype Container = Container(id: nat, pinned: bool, status: Status, started: nat, restarts: nat, always: bool)

  /** `external` and `internal` say whether each ingress entry is blocked; `clock` is above every start
      stamp in use; `applying` is the migration whose executor may still commit. */
  datatype World = World(fingerprint: int, external: bool, internal: bool, writers: nat, queue: int,
                         services: PerRole<Service>, clock: nat, db: Database, applying: Option<nat>,
                         project: map<Role, Container>, foreign: nat) {

    predicate Blocked() { external && internal }

    predicate OpenBoth() { !external && !internal }

    ghost predicate Clocked() {
      forall r: Role :: services.At(r).started < clock
    }
  }

  /** What reaches a runner, a provider or the candidate port. */
  datatype Op = BlockEntries | DisableRestart(role: Role) | SignalTerm(role: Role) | StartService(role: Role)
              | EnableRestart(role: Role) | OpenEntries | ApplyMigration(index: nat) | AskBackup(request: Request)
              | CreateCrew | StartCandidate

  /** One effect sent out: the journal at that moment, the observation its guard judged, the database
      observation made for it, the world it met, whether it started a stopped container, and the exit an executor
      returned; none when it timed out. */
  datatype Emission = Emission(op: Op, past: seq<Event>, view: World, proof: Option<Database>, met: World, took: bool,
                               exit: Option<int>)

  /** Two emissions that may never both be in one trace. */
  ghost predicate Exclusive(a: Op, b: Op) {
    || (a.AskBackup? && b.AskBackup?)
    || (a == b && (a.SignalTerm? || a.ApplyMigration? || a.CreateCrew? || a.StartCandidate?))
  }

  predicate Same(c: Config, db: Database) {
    db.readOnly && db.identity == c.identity
  }

  /** The ledger and the catalog are the baseline and no index build is in progress. */
  predicate DdlFree(c: Config, db: Database) {
    Same(c, db) && db.ledger == c.plan.baseline && db.catalog == c.catalog && db.invalid == {} && db.builds == 0
  }

  ghost predicate Quiet(db: Database) {
    db.sessions == 0 && db.leases == 0
  }

  // -- effects --------------------------------------------------------------------

  function NewContainer(id: nat): Container {
    Container(id, true, Built, 0, 0, false)
  }

  function Started(w: World, r: Role): World {
    if w.services.At(r).running then w
    else w.(services := With(w.services, r, w.services.At(r).(running := true, started := w.clock, restarts := 0)),
            clock := w.clock + 1)
  }

  /** The world after an effect has taken place in full. */
  function Deliver(c: Config, op: Op, w: World): World {
    match op
    case BlockEntries => w.(external := true, internal := true)
    case DisableRestart(r) => w.(services := With(w.services, r, w.services.At(r).(always := false)))
    case SignalTerm(r) =>
      if w.services.At(r).running
      then w.(services := With(w.services, r, w.services.At(r).(running := false, exit := 0))) else w
    case StartService(r) => Started(w, r)
    case EnableRestart(r) => w.(services := With(w.services, r, w.services.At(r).(always := true)))
    case OpenEntries => w.(external := false, internal := false)
    case ApplyMigration(i) => if i < |c.plan.pending| then Committed(c, w.(applying := Some(i))) else w
    case AskBackup(_) => w
    case CreateCrew =>
      w.(project := map[Backend := NewContainer(w.clock), Cron := NewContainer(w.clock + 1),
                        Broadcast := NewContainer(w.clock + 2), QueueWorker := NewContainer(w.clock + 3)],
         clock := w.clock + 4)
    case StartCandidate =>
      if Backend in w.project
      then w.(project := w.project[Backend := w.project[Backend].(status := Up, started := w.clock + 1)],
              clock := w.clock + 2) else w
  }

  /** The executor of the migration being applied commits it. */
  function Committed(c: Config, w: World): World {
    if w.applying.Some? && w.applying.value < |c.plan.pending|
    then var m := c.plan.pending[w.applying.value];
         w.(applying := None, db := w.db.(ledger := w.db.ledger + {m.name}, indexes := w.db.indexes + m.indexes,
                                          catalog := w.db.catalog + 1))
    else w
  }

  /** The world after an effect was interrupted: nothing happened, one ingress entry was handled, a
      migration was left running, or the effect took place. */
  predicate Reached(c: Config, op: Op, w: World, w': World) {
    || w' == w
    || w' == Deliver(c, op, w)
    || (op.BlockEntries? && w' == w.(external := true))
    || (op.OpenEntries? && w' == w.(internal := false))
    || (op.ApplyMigration? && op.index < |c.plan.pending| && w' == w.(applying := Some(op.index)))
  }

  /** What the environment may do between two observations: anything, except give a container a start
      stamp that was used before; and, when the executor is the only writer of the ledger, touch the
      ledger other than by committing the migration left running. */
  predicate Admissible(c: Config, soleWriter: bool, w: World, w': World) {
    && w.clock <= w'.clock
    && (forall r: Role :: w'.services.At(r).started == w.services.At(r).started
                          || w.clock <= w'.services.At(r).started < w'.clock)
    && (soleWriter ==>
          || (w'.db.ledger == w.db.ledger && w'.applying == w.applying)
          || (w'.db.ledger == Committed(c, w).db.ledger && w'.applying == None))
  }

  /** Where the ledger stands when only the executor writes it: at the receipted prefix, or past it by
      the one migration whose outcome is open. */
  ghost predicate LedgerInv(c: Config, v: View, w: World, o: World) {
    var n := v.steps.applied;
    && n <= |c.plan.pending|
    && if Apply(n) !in v.steps.intents then
         w.applying == None && w.db.ledger == if n == 0 then o.db.ledger else c.plan.LedgerAfter(n)
       else
         && n < |c.plan.pending|
         && (w.applying == None || w.applying == Some(n))
         && (w.db.ledger == c.plan.LedgerAfter(n)
             || (w.db.ledger == c.plan.LedgerAfter(n + 1) && w.applying == None))
         && (n in v.steps.failures && v.steps.failures[n] ==>
               w.db.ledger == c.plan.LedgerAfter(n) && w.applying == None)
  }

  // -- judgements on one observation ---------------------------------------------------------

  predicate AllCleanlyStopped(w: World) {
    forall r: Role :: CleanlyStopped(w.services.At(r))
  }

  predicate AllHealthy(w: World) {
    forall r: Role :: w.services.At(r).running && w.services.At(r).always
  }

  /** The host as `assert_contained` accepts it. */
  ghost predicate ContainedNow(v: View, w: World) {
    && v.host.init.Some? && v.host.settled.Some? && !Resuming(v)
    && w.Blocked() && AllCleanlyStopped(w) && w.queue == v.host.settled.value
    && w.fingerprint == v.host.init.value.fingerprint && w.writers == 0
  }

  /** The queue is the settled one, or its drift was accepted and journaled. */
  ghost predicate QueueGated(v: View, w: World) {
    v.host.settled == Some(w.queue) || v.host.drift == Some(w.queue)
  }

  /** A role runs or was started since the baseline without receipt. */
  predicate Moved(v: View, w: World, r: Role)
    requires v.host.init.Some?
  {
    ResumeRole(r) !in v.host.done
    && (w.services.At(r).running || w.services.At(r).started != v.host.init.value.started.At(r))
  }

  /** An actual start: receipted, or observed. */
  predicate StartObserved(v: View, w: World)
    requires v.host.init.Some?
  {
    exists r: Role :: ResumeRole(r) in v.host.done || Moved(v, w, r)
  }

  /** What is asked of the database before migration i. */
  ghost predicate ReadyFor(c: Config, i: nat, db: Database) {
    && i < |c.plan.pending| && Same(c, db) && db.ledger == c.plan.LedgerAfter(i)
    && db.invalid == {} && db.builds == 0 && Quiet(db)
  }

  /** Migration i shows in the database, its indexes valid. */
  ghost predicate AppliedCleanly(c: Config, i: nat, db: Database) {
    && i < |c.plan.pending| && Same(c, db) && db.ledger == c.plan.LedgerAfter(i + 1)
    && db.invalid == {} && db.builds == 0 && c.plan.pending[i].indexes <= db.indexes
  }

  /** What was recorded of a failed migration, in the exit of its executor and the database it left: another or a
      writable database proves nothing; a timeout; a failure exit with or without the ledger row; exit zero without
      it; or an index that is not there or not valid. Definite only when a transactional migration failed and left no
      trace. */
  ghost predicate Explains(c: Config, i: nat, exit: Option<int>, db: Database, f: FailureCode, definite: bool) {
    && i < |c.plan.pending|
    && var m := c.plan.pending[i];
       var ours := db.readOnly && db.identity == c.identity;
       var applied := db.ledger == c.plan.LedgerAfter(i) + {m.name};
       var quiet := db.invalid == {} && db.builds == 0;
       && (f == Undecidable <==> !ours)
       && (f == MigrationTimeout <==> ours && exit.None?)
       && (f == LedgerWithoutSuccess <==> ours && exit.Some? && exit.value != 0 && applied)
       && (f == FailureCode.MigrationFailed <==> ours && exit.Some? && exit.value != 0 && !applied)
       && (f == ExitZeroNoLedger <==> ours && exit == Some(0) && !applied)
       && (f == IndexInvalid <==> ours && exit == Some(0) && applied && !(quiet && m.indexes <= db.indexes))
       && (definite <==> ours && exit.Some? && exit.value != 0 && !applied && !m.concurrent && quiet)
  }

  /** A transactional migration left no trace. */
  ghost predicate RolledBack(c: Config, i: nat, db: Database) {
    && i < |c.plan.pending| && !c.plan.pending[i].concurrent && Same(c, db)
    && db.ledger != c.plan.LedgerAfter(i + 1) && db.invalid == {} && db.builds == 0
  }

  predicate ProjectIsCrew(w: World, crew: PerRole<Created>) {
    w.foreign == 0 && forall r: Role :: r in w.project && w.project[r].id == crew.At(r).id
  }

  /** The consumers were never started; the backend neither, or it runs on its receipted start. */
  ghost predicate CandidateStands(w: World, crew: PerRole<Created>, backend: Option<nat>) {
    && (forall r: Role :: r in w.project && w.project[r].id == crew.At(r).id)
    && (forall r: Role :: r != Backend ==> Held(w.project[r], crew.At(r)))
    && (if backend.None? then Held(w.project[Backend], crew.At(Backend))
        else Running(w.project[Backend]) && w.project[Backend].started == backend.value)
  }

  // -- what is known of every emission -------------------------------------------------

  /** A resume effect: before any marker, after containment, once the resume is decided, with a fresh
      proof that the database still is the baseline. */
  ghost predicate ResumeLawful(c: Config, v: View, w: World, proof: Option<Database>)
    requires v.host.init.Some?
  {
    && !Marked(v) && v.host.contained && Resuming(v)
    && proof.Some? && DdlFree(c, proof.value)
    && w.writers == 0 && w.fingerprint == v.host.init.value.fingerprint
    && forall q: Role :: RolePhase(v, w, q)
  }

  /** Where a role must stand on every observation of a resume: on its receipted fresh start once that is receipted,
      freshly started or still as contained once it is intended, cleanly stopped before. */
  ghost predicate RolePhase(v: View, w: World, r: Role)
    requires v.host.init.Some?
  {
    var s := w.services.At(r);
    if ResumeRole(r) in v.host.done then
      FreshlyRunning(v, w, r) && s.always && s.started == v.host.done[ResumeRole(r)]
    else if ResumeRole(r) in v.host.intents then
      if s.running then FreshlyRunning(v, w, r) else StoppedAsContained(v, w, r)
    else CleanlyStopped(s)
  }

  /** A container that was contained and never started since. */
  predicate StoppedAsContained(v: View, w: World, r: Role)
    requires v.host.init.Some?
  {
    var s := w.services.At(r);
    && !s.running && !s.always && s.exit == 0
    && s.started == v.host.init.value.started.At(r) && s.restarts == v.host.init.value.restarts.At(r)
  }

  predicate FreshlyRunning(v: View, w: World, r: Role)
    requires v.host.init.Some?
  {
    var s := w.services.At(r);
    s.running && s.restarts == 0 && s.started != v.host.init.value.started.At(r)
  }

  ghost predicate Lawful(c: Config, e: Emission) {
    var v, w := ViewOf(e.past), e.view;
    && v.host.init.Some?
    && match e.op
       case BlockEntries => !Resuming(v) && Ingress in v.host.intents && Ingress !in v.host.done
       case DisableRestart(r) =>
         !Resuming(v) && w.Blocked() && Ingress in v.host.done && TermsDoneBefore(v, r)
         && RestartNo(r) in v.host.intents && RestartNo(r) !in v.host.done
       case SignalTerm(r) =>
         !Resuming(v) && w.Blocked() && !w.services.At(r).always && Ingress in v.host.done
         && RestartNo(r) in v.host.done && TermsDoneBefore(v, r)
         && Term(r) in v.host.intents && Term(r) !in v.host.done && e.past[|e.past| - 1] == HostIntent(Term(r))
       case StartService(r) =>
         && ResumeLawful(c, v, w, e.proof)
         && w.Blocked() && ResumeRole(r) in v.host.intents && ResumeRole(r) !in v.host.done
         && StoppedAsContained(v, w, r)
         && (forall q: Role :: StartRank(q) < StartRank(r) ==>
               ResumeRole(q) in v.host.done && FreshlyRunning(v, w, q) && w.services.At(q).always)
         && (StartObserved(v, w) || QueueGated(v, w)) && (r == Backend ==> QueueGated(v, w))
       case EnableRestart(r) =>
         ResumeLawful(c, v, w, e.proof) && FreshlyRunning(v, w, r) && ResumeRole(r) in v.host.intents
       case OpenEntries =>
         ResumeLawful(c, v, w, e.proof) && AllResumed(v) && OpenIngress in v.host.intents && OpenIngress !in v.host.done
       case ApplyMigration(i) =>
         && i < |c.plan.pending| && Marked(v) && !v.steps.failed && AppliedBefore(v, i)
         && Apply(i) in v.steps.intents && Apply(i) !in v.steps.done && e.past[|e.past| - 1] == Intent(Apply(i))
         && e.proof.Some? && Same(c, e.proof.value) && e.proof.value.ledger == c.plan.LedgerAfter(i)
         && e.proof.value.invalid == {} && e.proof.value.builds == 0 && Quiet(e.proof.value)
       case AskBackup(q) =>
         && !Marked(v) && !Resuming(v) && v.host.contained
         && e.past[|e.past| - 1] == BackupRequested(q)
       case CreateCrew =>
         && CreateHeld in v.steps.intents && CreateHeld !in v.steps.done && w.project == map[] && w.foreign == 0
         && e.past[|e.past| - 1] == Intent(CreateHeld)
       case StartCandidate =>
         && StartBackend in v.steps.intents && StartBackend !in v.steps.done && v.steps.crew.Some?
         && e.past[|e.past| - 1] == Intent(StartBackend)
  }

  // -- what was looked at before an event was written ---------------------------------------------

  /** The worlds a process went through from one event to the next, each as an observation or an effect left it;
      the last is the one the event is written over. */
  type Course = seq<World>

  ghost predicate Standing(course: Course, w: World) {
    course != [] && course[|course| - 1] == w
  }

  ghost predicate Grown(course: Course, course': Course) {
    |course| < |course'| && course <= course'
  }

  /** Between two moments the host was seen contained, and after that the database quiet on the baseline. */
  ghost predicate QuietBetween(c: Config, v: View, course: Course, from: nat, to: nat) {
    exists a, b :: from <= a < b < to <= |course|
      && ContainedNow(v, course[a]) && DdlFree(c, course[b].db) && Quiet(course[b].db)
  }

  ghost predicate TwiceQuiet(c: Config, v: View, course: Course) {
    exists m: nat :: QuietBetween(c, v, course, 0, m) && QuietBetween(c, v, course, m, |course|)
  }

  /** The database was seen at the prefix before a migration, and after that the host contained. */
  ghost predicate ReadyLook(c: Config, v: View, i: nat, course: Course) {
    exists a, b :: 0 <= a < b < |course| && ReadyFor(c, i, course[a].db) && ContainedNow(v, course[b])
  }

  /** The host was seen contained, and after that the candidate's project empty. */
  ghost predicate EmptyLook(v: View, course: Course) {
    exists a, b :: 0 <= a < b < |course|
      && ContainedNow(v, course[a]) && course[b].project == map[] && course[b].foreign == 0
  }

  /** Between two moments the candidate was seen with its consumers held and its backend as given, and after that
      the legacy contained. */
  ghost predicate HeldBetween(v: View, backend: Option<nat>, course: Course, from: nat, to: nat) {
    && v.steps.crew.Some?
    && exists a, b :: from <= a < b < to <= |course|
         && CandidateStands(course[a], v.steps.crew.value, backend) && ContainedNow(v, course[b])
  }

  ghost predicate TwiceHeld(v: View, course: Course) {
    exists m: nat :: HeldBetween(v, v.steps.backendStart, course, 0, m)
                     && HeldBetween(v, v.steps.backendStart, course, m, |course|)
  }

  /** The project was seen to hold the created containers and nothing else. */
  ghost predicate CrewLook(v: View, course: Course) {
    v.steps.crew.Some? && exists a :: 0 <= a < |course| && ProjectIsCrew(course[a], v.steps.crew.value)
  }

  /** What the observations since the previous event must have shown when an event is written; w is the last of
      them. */
  ghost predicate Shown(c: Config, v: View, w: World, course: Course, e: Event) {
    match e
    case HostInit(_, _, _) => w.writers == 0 && AllHealthy(w)
    case HostIntent(LegacyResume) => AllCleanlyStopped(w) && QueueGated(v, w)
    case HostIntent(OpenIngress) => w.Blocked()
    case HostDone(RestartNo(_), _) => w.Blocked()
    case HostDone(Term(r), _) => w.Blocked() && CleanlyStopped(w.services.At(r))
    case HostDone(ResumeRole(r), _) => v.host.init.Some? && FreshlyRunning(v, w, r)
    case HostSettled(_) => w.Blocked() && AllCleanlyStopped(w)
    case HostContained(f, _) => ContainedNow(v, w) && f == w.fingerprint
    case DriftAccepted(_, q) => q == w.queue
    case HostResumed =>
      v.host.init.Some? && w.OpenBoth() && forall r: Role :: FreshlyRunning(v, w, r) && w.services.At(r).always
    case Baseline => DdlFree(c, w.db)
    case Quiescent(_, _) => TwiceQuiet(c, v, course)
    case DdlMarker(_) => QuietBetween(c, v, course, 0, |course|)
    case Intent(Apply(i)) => ReadyLook(c, v, i, course)
    case Done(Apply(i)) => AppliedCleanly(c, i, w.db)
    case StepFailed(i, f, definite) =>
      (definite ==> RolledBack(c, i, w.db)) && exists exit :: Explains(c, i, exit, w.db, f, definite)
    case Migrated(g) => Same(c, w.db) && w.db.ledger == c.plan.LedgerAfter(|c.plan.pending|) && g == w.db.catalog
    case Intent(CreateHeld) => EmptyLook(v, course)
    case CandidateCreated(_) => w.foreign == 0
    case Intent(StartBackend) => CrewLook(v, course) && HeldBetween(v, None, course, 0, |course|)
    case BackendStarted(_) =>
      v.steps.crew.Some? && forall r: Role ::
        r in w.project && w.project[r].id == v.steps.crew.value.At(r).id && w.project[r].pinned
    case Complete => TwiceHeld(v, course)
    case _ => true
  }

  lemma QuietStays(c: Config, v: View, course: Course, course': Course, from: nat, to: nat, earlier: nat)
    requires QuietBetween(c, v, course, from, to) && course <= course' && earlier <= from
    ensures QuietBetween(c, v, course', earlier, to)
  {
    var a, b :| from <= a < b < to <= |course|
      && ContainedNow(v, course[a]) && DdlFree(c, course[b].db) && Quiet(course[b].db);
    assert course'[a] == course[a] && course'[b] == course[b];
  }

  lemma QuietTwice(c: Config, v: View, before: nat, between: Course, course: Course)
    requires QuietBetween(c, v, between, before, |between|) && between <= course
    requires QuietBetween(c, v, course, |between|, |course|)
    ensures TwiceQuiet(c, v, course)
  {
    QuietStays(c, v, between, course, before, |between|, 0);
  }

  lemma HeldTwice(v: View, before: nat, between: Course, course: Course)
    requires HeldBetween(v, v.steps.backendStart, between, before, |between|) && between <= course
    requires HeldBetween(v, v.steps.backendStart, course, |between|, |course|)
    ensures TwiceHeld(v, course)
  {
    HeldStays(v, v.steps.backendStart, between, course, before, |between|, 0);
  }

  lemma HeldStays(v: View, backend: Option<nat>, course: Course, course': Course, from: nat, to: nat, earlier: nat)
    requires HeldBetween(v, backend, course, from, to) && course <= course' && earlier <= from
    ensures HeldBetween(v, backend, course', earlier, to)
  {
    var a, b :| from <= a < b < to <= |course|
      && CandidateStands(course[a], v.steps.crew.value, backend) && ContainedNow(v, course[b]);
    assert course'[a] == course[a] && course'[b] == course[b];
  }

  lemma CrewStays(v: View, course: Course, course': Course)
    requires CrewLook(v, course) && course <= course'
    ensures CrewLook(v, course')
  {
    var a :| 0 <= a < |course| && ProjectIsCrew(course[a], v.steps.crew.value);
    assert course'[a] == course[a];
  }

  /** The intent that stands behind an exclusive emission. */
  ghost predicate Recorded(v: View, op: Op) {
    match op
    case SignalTerm(r) => Term(r) in v.host.intents
    case StartService(r) => ResumeRole(r) in v.host.intents
    case ApplyMigration(i) => Apply(i) in v.steps.intents
    case AskBackup(_) => v.window.request.Some?
    case CreateCrew => CreateHeld in v.steps.intents
    case StartCandidate => StartBackend in v.steps.intents
    case _ => true
  }

  // -- the faithful environment --------------------------------------------------------

  /** A healthy legacy before anything is contained, over a quiet baseline database. */
  ghost predicate Healthy(c: Config, w: World) {
    && w.Clocked() && w.writers == 0
    && (forall r: Role :: w.services.At(r).running && w.services.At(r).always)
    && DdlFree(c, w.db) && Quiet(w.db) && w.applying == None
    && w.project == map[] && w.foreign == 0
  }

  /** The legacy of a healthy host once contained. */
  ghost function ContainedFrom(origin: World): World {
    origin.(external := true, internal := true,
            services := PerRole(Contained(origin.services.backend), Contained(origin.services.cron),
                                Contained(origin.services.broadcast), Contained(origin.services.queueWorker)))
  }

  /** What the host contract observes of a world. */
  ghost function HostOf(w: World): (int, bool, bool, nat, int, PerRole<Service>) {
    (w.fingerprint, w.external, w.internal, w.writers, w.queue, w.services)
  }

  predicate CleanlyStopped(s: Service) {
    !s.running && !s.always && s.exit == 0
  }

  ghost function Contained(s: Service): Service {
    s.(running := false, always := false, exit := 0)
  }

  /** Where a role of a faithful host stands, given what is journaled about it. */
  ghost predicate RoleFollows(v: View, o: Service, s: Service, r: Role) {
    if ResumeRole(r) !in v.host.intents then
      && s == o.(running := s.running, always := s.always, exit := s.exit)
      && (RestartNo(r) !in v.host.intents ==> s.always)
      && (RestartNo(r) in v.host.done ==> !s.always)
      && (if s.running then s.exit == o.exit && Term(r) !in v.host.done
          else s.exit == 0 && Term(r) in v.host.intents)
    else
      && (if s.running then s.restarts == 0 && s.started > o.started
          else s == Contained(o))
      && (ResumeRole(r) in v.host.done ==> s.running && s.always && s.started == v.host.done[ResumeRole(r)])
  }

  ghost predicate HostFollows(v: View, o: World, w: World) {
    && w.fingerprint == o.fingerprint && w.writers == 0 && w.queue == o.queue
    && o.clock <= w.clock
    && (forall r: Role :: RoleFollows(v, o.services.At(r), w.services.At(r), r))
    && (v.host.init.Some? ==>
          && v.host.init.value.fingerprint == o.fingerprint
          && (forall r: Role :: v.host.init.value.started.At(r) == o.services.At(r).started
                                && v.host.init.value.restarts.At(r) == o.services.At(r).restarts))
    && (Ingress !in v.host.intents && Ingress !in v.host.done ==> w.external == o.external && w.internal == o.internal)
    && (Ingress in v.host.done && OpenIngress !in v.host.intents ==> w.Blocked())
    && (OpenIngress in v.host.done ==> w.OpenBoth())
    && (v.host.settled.Some? ==> v.host.settled == Some(o.queue))
  }

  ghost predicate DatabaseFollows(c: Config, v: View, o: World, w: World) {
    && Same(c, w.db) && w.db.invalid == {} && w.db.builds == 0 && Quiet(w.db)
    && (v.steps.intents == {} ==> w.db == o.db && w.applying == None)
    && (v.steps.migrated.Some? ==> v.steps.migrated == Some(w.db.catalog))
  }

  predicate Held(x: Container, k: Created) {
    x.pinned && x.status == Built && x.started == 0 == k.started && x.restarts == 0 == k.restarts && !x.always
  }

  predicate Running(x: Container) {
    x.pinned && x.status == Up && x.restarts == 0 && x.started != 0 && !x.always
  }

  ghost predicate CandidateFollows(v: View, w: World) {
    && w.foreign == 0
    && (CreateHeld !in v.steps.intents ==> w.project == map[])
    && (v.steps.crew.Some? ==>
          forall r: Role ::
            && r in w.project && w.project[r].id == v.steps.crew.value.At(r).id
            && (r != Backend || StartBackend !in v.steps.intents ==> Held(w.project[r], v.steps.crew.value.At(r))))
    && (v.steps.backendStart.Some? ==>
          Backend in w.project && Running(w.project[Backend])
              && w.project[Backend].started == v.steps.backendStart.value)
  }
}
