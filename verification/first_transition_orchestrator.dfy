/** The first transition: containment, one window backup, the irrevocable marker, the pending
    migrations one by one, and a held candidate of which only the backend is started. */
module FirstTransitionOrchestrator {
  import opened Outcomes
  import opened Roles
  import opened FirstTransitionJournal
  import opened FirstTransitionTheorems
  import opened FirstTransitionSite
  import opened FirstTransitionHostChecks
  import opened FirstTransitionInvariant
  import opened FirstTransitionPorts
  import opened FirstTransitionHostContract

  // -- judgements on a database observation ------------------------------------------------

  function SameCheck(c: Config, db: Database): (o: Outcome<Code>)
    ensures !o.Killed? && (o.Pass? <==> Same(c, db))
  {
    Then(Require(db.readOnly, DatabaseNotReadOnly), Require(db.identity == c.identity, DatabaseIdentity))
  }

  function DdlFreeCheck(c: Config, db: Database): (o: Outcome<Code>)
    ensures !o.Killed? && (o.Pass? <==> DdlFree(c, db))
  {
    Then(SameCheck(c, db),
    Then(Require(db.ledger == c.plan.baseline, LedgerDrift),
    Then(Require(db.catalog == c.catalog, DdlDrift),
         Require(db.invalid == {} && db.builds == 0, DdlInProgress))))
  }

  function QuietCheck(db: Database): (o: Outcome<Code>)
    ensures !o.Killed? && (o.Pass? <==> Quiet(db))
  {
    Then(Require(db.sessions == 0, WritingSession), Require(db.leases == 0, ActiveLease))
  }

  /** The aggregates of a database observation that quiescence compares. */
  datatype Summary = Summary(identity: int, ledger: set<Name>, catalog: int, builds: nat, sessions: nat, leases: nat,
                             invalid: nat)

  datatype Sighting = Sighting(fingerprint: int, queue: int, database: Summary)

  function Summarize(db: Database): Summary {
    Summary(db.identity, db.ledger, db.catalog, db.builds, db.sessions, db.leases, |db.invalid|)
  }

  /** Why an applied migration is not receipted; None when it is. */
  function MigrationFailure(c: Config, i: nat, code: Option<int>, after: Database): (f: Option<FailureCode>)
    requires i < |c.plan.pending|
  {
    var m := c.plan.pending[i];
    var applied := after.ledger == c.plan.LedgerAfter(i) + {m.name};
    if !SameCheck(c, after).Pass? then Some(Undecidable)
    else if code.None? then Some(MigrationTimeout)
    else if code != Some(0) then Some(if applied then LedgerWithoutSuccess else MigrationFailed)
    else if !applied then Some(ExitZeroNoLedger)
    else if after.invalid != {} || after.builds != 0 || !(m.indexes <= after.indexes) then Some(IndexInvalid)
    else None
  }

  /** Definite only for a transactional rollback without a trace. */
  predicate Definite(m: Migration, f: FailureCode, after: Database) {
    f == MigrationFailed && !m.concurrent && after.invalid == {} && after.builds == 0
  }

  /** The configured database with the whole ledger and the catalog that was journaled with it. */
  ghost predicate MigratedNow(c: Config, v: View, db: Database) {
    Same(c, db) && db.ledger == c.plan.LedgerAfter(|c.plan.pending|) && v.steps.migrated == Some(db.catalog)
  }

  lemma LedgerStep(p: Plan, n: nat)
    requires n < |p.pending|
    ensures p.LedgerAfter(n + 1) == p.LedgerAfter(n) + {p.pending[n].name}
  {
  }

  // -- judgements on the candidate ------------------------------------------------------------

  function CandidateCheck(w: World, crew: PerRole<Created>, backend: Option<nat>): (o: Outcome<Code>)
    ensures !o.Killed? && (o.Pass? <==> CandidateStands(w, crew, backend))
  {
    if !(forall r: Role :: r in w.project && w.project[r].id == crew.At(r).id) then Refused(PortFailed)
    else if !(forall r: Role :: w.project[r].pinned) then Refused(CandidateMismatch)
    else if !(forall r: Role :: r != Backend ==> Held(w.project[r], crew.At(r))) then Refused(NotHeld)
    else if backend.None? then Require(Held(w.project[Backend], crew.At(Backend)), NotHeld)
    else Require(Running(w.project[Backend]) && w.project[Backend].started == backend.value, BackendNotRunning)
  }

  function CrewOf(w: World): PerRole<Created>
    requires forall r: Role :: r in w.project
  {
    PerRole(CreatedOf(w.project[Backend]), CreatedOf(w.project[Cron]), CreatedOf(w.project[Broadcast]),
            CreatedOf(w.project[QueueWorker]))
  }

  function CreatedOf(x: Container): Created {
    Created(x.id, x.started, x.restarts)
  }

  // -- what stages leave alone ------------------------------------------------------------------

  ghost predicate OnlyWindow(v: View, v': View) {
    v' == v.(window := v'.window)
  }

  /** Only this entry of the window was changed. */
  ghost predicate OnlyInit(v: View, v': View) {
    v' == v.(window := v.window.(init := v'.window.init))
  }

  ghost predicate OnlyBaseline(v: View, v': View) {
    v' == v.(window := v.window.(baseline := v'.window.baseline))
  }

  ghost predicate OnlyQuiescent(v: View, v': View) {
    v' == v.(window := v.window.(quiescent := v'.window.quiescent))
  }

  ghost predicate OnlyRequest(v: View, v': View) {
    v' == v.(window := v.window.(request := v'.window.request))
  }

  ghost predicate IntentAdded(v: View, v': View, s: Step) {
    v' == v.(steps := v.steps.(intents := v.steps.intents + {s}))
  }

  /** Only these steps may have been intended, receipted or failed, and the run is not recorded as failed. */
  ghost predicate OnlySteps(v: View, v': View, steps: set<Step>) {
    && v' == v.(steps := v'.steps) && v'.steps.failed == v.steps.failed
    && forall s :: s !in steps ==>
         (s in v'.steps.intents <==> s in v.steps.intents) && (s in v'.steps.done <==> s in v.steps.done)
  }

  /** No step but the release layout, which may be repeated, is open. */
  ghost predicate NothingOpen(v: View) {
    forall s :: s != Layout ==> !Open(v, s)
  }

  /** When a run completes in a faithful, undisturbed site. */
  ghost predicate Runnable(c: Config, inputs: Config, v: View, w: World) {
    && inputs == c && !Resuming(v) && !v.steps.failed
    && if Marked(v) then NothingOpen(v) else v.window.request.None? && !Stuck(v, w)
  }

  class FirstTransition {
    const host: ObservedHostContract
    const site: Site := host.site

    constructor (host: ObservedHostContract)
      ensures this.host == host
    {
      this.host := host;
    }

    method Init(inputs: Config) returns (o: Outcome<Code>)
      requires site.Inv() && (site.View().window.init.None? ==> inputs == site.terms.config)
      modifies site`course, site`written, site`journal
      ensures site.Inv()
      ensures OnlyInit(old(site.View()), site.View())
      ensures o.Pass? ==> site.View().window.init == Some(inputs)
      ensures inputs != site.terms.config ==> o == Refused(InputsChanged) && site.journal == old(site.journal)
      ensures inputs == site.terms.config && o.Refused? ==> o.code == JournalWrite && !site.terms.faithful
      ensures site.steady ==> !o.Killed?
    {
      hide SiteInv, Witnessed, Backed, Standing, ViewOf;
      SiteFacts(site.terms, site.journal, site.world, site.trace);
      if site.View().window.init.None? {
        o := site.Append(TransitionInit(inputs));
      } else {
        o := Require(site.View().window.init.value == inputs, InputsChanged);
      }
    }

    /** The intent of a step, journaled right before its effect. */
    method IntendStep(s: Step) returns (o: Outcome<Code>)
      requires site.Inv() && IntentAllowed(site.terms.config, site.View(), s)
      requires Fits(site.terms, site.View(), site.world, Intent(s))
      requires Shown(site.terms.config, site.View(), site.world, site.course, Intent(s))
      modifies site`course, site`written, site`journal
      ensures site.Inv() && (site.terms.faithful ==> !o.Refused?) && (site.steady ==> !o.Killed?)
      ensures IntentAdded(old(site.View()), site.View(), s)
              || (!o.Pass? && site.View() == old(site.View()))
      ensures o.Pass? ==> site.journal == old(site.journal) + [Intent(s)]
                          && s in site.View().steps.intents
    {
      hide SiteInv, Witnessed, Backed, Standing, ViewOf, Fits, Shown, IntentAllowed;
      o := site.Append(Intent(s));
    }

    // -- before the marker ---------------------------------------------------------------------

    /** A fresh look at the database. */
    method ObserveDatabase() returns (o: Outcome<Code>, db: Database)
      requires site.Inv()
      modifies site`course, site`world
      ensures site.Inv() && db == site.world.db && Moves(site.terms, old(site.world), site.world)
      ensures site.course == old(site.course) + [site.world]
      ensures o.Refused? ==> o.code == PortFailed
      ensures site.terms.faithful ==> !o.Refused? && site.world == old(site.world)
      ensures site.terms.faithful ==> Same(site.terms.config, db) && db.invalid == {} && db.builds == 0 && Quiet(db)
      ensures site.terms.faithful && !Marked(site.View()) ==> DdlFree(site.terms.config, db)
      ensures site.steady ==> !o.Killed?
    {
      hide SiteInv, Witnessed, Backed, Standing, ViewOf;
      var view;
      o, view := site.Observe();
      db := view.db;
      FaithfulDatabase(site.terms, site.journal, site.world, site.trace);
    }

    method Baseline() returns (o: Outcome<Code>)
      requires site.Inv() && !Marked(site.View()) && !Resuming(site.View())
      modifies site`course, site`written, site`journal, site`world
      ensures site.Inv()
      ensures OnlyBaseline(old(site.View()), site.View())
      ensures o.Pass? ==> site.View().window.baseline && DdlFree(site.terms.config, site.world.db)
      ensures site.terms.faithful ==> !o.Refused? && site.world == old(site.world)
      ensures site.steady ==> !o.Killed?
    {
      hide SiteInv, Witnessed, Backed, Standing, ViewOf, DdlFree;
      var db;
      db :- ObserveDatabase();
      :- DdlFreeCheck(site.terms.config, db);
      if site.View().window.baseline { return Pass; }
      o := site.Append(Event.Baseline);
    }

    /** The host is seen contained and then the database quiet on the baseline: whatever two such observations
        saw, they saw the same. */
    method QuietObservation() returns (o: Outcome<Code>, seen: Sighting)
      requires site.Inv() && !Resuming(site.View())
      modifies site`course, site`world
      ensures site.Inv()
      ensures o.Pass? ==>
                && site.View().host.init.Some? && site.View().host.settled.Some?
                && seen == Sighting(site.View().host.init.value.fingerprint, site.View().host.settled.value,
                                    Summary(site.terms.config.identity, site.terms.config.plan.baseline,
                                            site.terms.config.catalog, 0, 0, 0, 0))
      ensures o.Pass? ==>
                && Grown(old(site.course), site.course)
                && QuietBetween(site.terms.config, site.View(), site.course, |old(site.course)|, |site.course|)
      ensures site.terms.faithful && !Marked(site.View()) && site.View().host.settled.Some? ==> !o.Refused?
      ensures site.terms.faithful ==> site.world == old(site.world)
      ensures site.steady ==> !o.Killed?
    {
      hide SiteInv, Witnessed, Backed, Standing, ViewOf;
      seen := Sighting(0, 0, Summary(0, {}, 0, 0, 0, 0, 0));
      var view: World;
      o, view := host.AssertContained();
      if !o.Pass? { return; }
      var db;
      o, db := ObserveDatabase();
      if !o.Pass? { return; }
      o := Then(DdlFreeCheck(site.terms.config, db), QuietCheck(db));
      if o.Pass? {
        ghost var n := |site.course|;
        assert site.course[n - 2] == view && site.course[n - 1] == site.world;
        seen := Sighting(view.fingerprint, site.View().host.settled.value, Summarize(db));
      }
    }

    /** Two consecutive quiet observations within the budget. They cannot differ: each was held against
        the same journaled baseline. */
    method Quiesce() returns (o: Outcome<Code>)
      requires site.Inv() && !Marked(site.View()) && !Resuming(site.View()) && site.View().host.contained
      requires site.View().window.request.None? && site.View().window.baseline
      modifies site`course, site`written, site`journal, site`world
      ensures site.Inv()
      ensures OnlyQuiescent(old(site.View()), site.View())
      ensures o.Pass? ==> site.View().window.quiescent.Some?
      ensures o.Pass? ==> |site.written| == |old(site.written)| + 1
                          && TwiceQuiet(site.terms.config, old(site.View()), site.written[|old(site.written)|])
      ensures site.terms.faithful ==> !o.Refused?
      ensures site.steady ==> !o.Killed?
    {
      hide SiteInv, Witnessed, Backed, Standing, ViewOf, QuietBetween, TwiceQuiet;
      SiteFacts(site.terms, site.journal, site.world, site.trace);
      var first, second;
      ghost var v, before := site.View(), site.course;
      first :- QuietObservation();
      ghost var between := site.course;
      second :- QuietObservation();
      QuietTwice(site.terms.config, v, |before|, between, site.course);
      var slow := *;
      if slow && !site.terms.faithful { return Refused(QuiescenceUnbounded); }
      if first != second { return Refused(QuiescenceChanged); }
      o := site.Append(Quiescent(first.fingerprint, first.queue));
    }

    /** The request is journaled before the provider is asked, and no provider was asked before. */
    method AskForBackup(request: Request) returns (o: Outcome<Code>)
      requires site.Inv() && !Marked(site.View()) && !Resuming(site.View())
      requires site.View().window.quiescent == Some(request.quiescence) && site.View().window.request.None?
      requires request.config == site.terms.config
      modifies site`course, site`written, site`journal, site`world, site`trace
      ensures site.Inv()
      ensures OnlyRequest(old(site.View()), site.View())
      ensures o.Pass? ==> site.View().window.request == Some(At(|site.journal|, request))
      ensures o.Pass? ==> exists view :: OneMore(old(site.trace), site.trace, AskBackup(request), site.journal, view)
      ensures site.terms.faithful ==> !o.Refused?
      ensures site.steady ==> !o.Killed?
    {
      hide SiteInv, Witnessed, Backed, Standing, ViewOf, Lawful, Recorded, HostFacts, StepFacts;
      SiteFacts(site.terms, site.journal, site.world, site.trace);
      NoBackupAsked(site.terms, site.journal, site.world, site.trace);
      :- site.Append(BackupRequested(request));
      assert site.journal[|site.journal| - 1] == BackupRequested(request);
      AskLawful(site.terms.config, site.journal, site.world, request);
      ghost var view := site.world;
      o := site.Guarded(AskBackup(request), site.world, None);
      assert OneMore(old(site.trace), site.trace, AskBackup(request), site.journal, view);
    }

    /** The window backup: requested once, journaled before it is asked for, receipted only when the
        receipt attests that very request. */
    method Backup() returns (o: Outcome<Code>)
      requires site.Inv() && !Marked(site.View()) && !Resuming(site.View())
      requires site.View().window.quiescent.Some? && site.View().window.request.None?
      modifies site`course, site`written, site`journal, site`world, site`trace
      ensures site.Inv() && OnlyWindow(old(site.View()), site.View()) && !Marked(site.View())
      ensures o.Pass? ==> site.View().window.backup.Some?
      ensures site.terms.faithful ==> !o.Refused?
      ensures site.steady ==> !o.Killed?
    {
      hide SiteInv, Witnessed, Backed, Standing, ViewOf, ValidReceipt, HostFacts, StepFacts;
      SiteFacts(site.terms, site.journal, site.world, site.trace);
      var nonce: int := *;
      var request := Request(nonce, site.terms.config, site.View().window.quiescent.value);
      :- AskForBackup(request);
      var receipt: Receipt;
      receipt :- site.ProvideBackup(request);
      if !ValidReceipt(site.terms.config, receipt) { return Refused(CloneReceiptInvalid); }
      if receipt.request != Some(request) || receipt.id.None? { return Refused(BackupUnbound); }
      o := site.Append(BackupReceived(receipt));
    }

    /** The stored backup re-validated, one more quiet observation of the same window, then the marker. */
    method MarkDdl() returns (o: Outcome<Code>)
      requires site.Inv() && !Marked(site.View()) && !Resuming(site.View())
      modifies site`course, site`written, site`journal, site`world
      ensures site.Inv() && OnlyWindow(old(site.View()), site.View())
      ensures o.Pass? ==> Marked(site.View()) && |site.written| == |old(site.written)| + 1
      ensures o.Pass? ==> var looked := site.written[|old(site.written)|];
                          QuietBetween(site.terms.config, old(site.View()), looked, 0, |looked|)
      ensures o.Refused? ==> site.journal == old(site.journal)
      ensures site.terms.faithful && old(site.View()).window.backup.Some? ==> !o.Refused?
      ensures site.steady ==> !o.Killed?
    {
      hide SiteInv, Witnessed, Backed, Standing, ViewOf, ValidReceipt, StoredBackup, HostFacts;
      SiteFacts(site.terms, site.journal, site.world, site.trace);
      StoredBackupHolds(site.terms.config, site.View(), |site.journal|);
      :- StoredBackup(site.terms.config, site.View());
      var quiescent := site.View().window.quiescent.value;
      var seen;
      ghost var v, before := site.View(), site.course;
      seen :- QuietObservation();
      QuietStays(site.terms.config, v, site.course, site.course, |before|, |site.course|, 0);
      if seen.fingerprint != quiescent.fingerprint || seen.queue != quiescent.queue {
        return Refused(QuiescenceChanged);
      }
      o := site.Append(DdlMarker(site.View().window.backup.value.of.id.value));
    }

    method WindowUnused() returns (o: Outcome<Code>)
      ensures o.Pass? <==> site.View().window.request.None?
      ensures !o.Killed?
    {
      hide ViewOf;
      if site.View().window.request.None? { return Pass; }
      o := Refused(if site.View().window.backup.Some? then WindowUsed else BackupAmbiguous);
    }

    method UpToMarker() returns (o: Outcome<Code>)
      requires site.Inv() && !Marked(site.View()) && !Resuming(site.View())
      modifies site`course, site`written, site`journal, site`world, site`trace
      ensures site.Inv() && site.View().steps == old(site.View()).steps && !Resuming(site.View())
      ensures o.Pass? ==> Marked(site.View())
      ensures o.Refused? ==> !Marked(site.View())
      ensures old(site.View()).window.request.Some? ==>
                !o.Pass? && site.journal == old(site.journal) && site.trace == old(site.trace)
      ensures site.steady ==> !o.Killed?
      ensures site.terms.faithful && site.steady ==>
                (o.Pass? <==> old(site.View()).window.request.None? && !Stuck(old(site.View()), old(site.world)))
    {
      ghost var v := site.View();
      hide SiteInv, Witnessed, Backed, Standing, ViewOf, Stuck, ContainedNow;
      :- WindowUnused();
      :- Baseline();
      SameStuck(v, site.View(), old(site.world), site.world);
      ghost var v1 := site.View();
      :- host.Contain();
      OnlyContainedMeans(v1, site.View());
      :- Quiesce();
      :- Backup();
      o := MarkDdl();
    }

    // -- the migrations -----------------------------------------------------------------------

    /** What is asked before migration i is intended: the ledger is exactly the prefix before it. */
    method ReadyToApply(i: nat) returns (o: Outcome<Code>, before: Database)
      requires site.Inv() && i < |site.terms.config.plan.pending|
      requires AppliedBefore(site.View(), i) && Apply(i) !in site.View().steps.intents
      modifies site`course, site`world
      ensures site.Inv()
      ensures o.Pass? ==>
                && ReadyFor(site.terms.config, i, before) && ContainedNow(site.View(), site.world)
                && ReadyLook(site.terms.config, site.View(), i, site.course)
      ensures o.Pass? && (site.terms.soleWriter || site.terms.faithful) ==>
                site.world.db.ledger == site.terms.config.plan.LedgerAfter(i) && site.world.applying == None
      ensures site.terms.faithful && !Resuming(site.View()) && site.View().host.settled.Some? ==> !o.Refused?
      ensures site.terms.faithful ==> site.world == old(site.world)
      ensures site.steady ==> !o.Killed?
    {
      hide SiteInv, Witnessed, Backed, Standing, ViewOf, ContainedNow;
      LedgerKnown(site.terms, site.journal, site.world, site.trace, i);
      o, before := ObserveDatabase();
      if !o.Pass? { return; }
      ghost var seen := site.world;
      LedgerKnown(site.terms, site.journal, seen, site.trace, i);
      o := Then(SameCheck(site.terms.config, before),
           Then(Require(before.ledger == site.terms.config.plan.LedgerAfter(i), LedgerNotPrefix),
           Then(Require(before.invalid == {} && before.builds == 0, DdlInProgress),
                QuietCheck(before))));
      if !o.Pass? { return; }
      var view;
      o, view := host.AssertContained();
      LedgerKnown(site.terms, site.journal, site.world, site.trace, i);
      if o.Pass? {
        ghost var n := |site.course|;
        assert site.course[n - 2].db == before && site.course[n - 1] == site.world;
      }
    }

    /** The executor is run once, for a migration that was just intended. */
    method RunExecutor(i: nat, ghost before: Database) returns (o: Outcome<Code>, code: Option<int>)
      requires site.Inv() && i < |site.terms.config.plan.pending|
      requires site.journal != [] && site.journal[|site.journal| - 1] == Intent(Apply(i))
      requires Marked(site.View()) && !site.View().steps.failed && AppliedBefore(site.View(), i)
      requires Apply(i) in site.View().steps.intents && Apply(i) !in site.View().steps.done
      requires i !in site.View().steps.failures && forall e <- site.trace :: e.op != ApplyMigration(i)
      requires ReadyFor(site.terms.config, i, before)
      requires site.terms.soleWriter ==> site.world.db.ledger == before.ledger && site.world.applying == None
      modifies site`course, site`world, site`trace
      ensures site.Inv()
      ensures o.Pass? ==> exists m <- site.trace :: Ran(m, i, site.journal) && m.exit == code
      ensures site.terms.soleWriter && o.Pass? && code.Some? ==> site.world.applying == None
      ensures o.Refused? ==> o.code == PortFailed
      ensures site.terms.faithful ==> !o.Refused?
      ensures site.terms.faithful && o.Pass? ==>
                code == Some(0) && site.world == Deliver(site.terms.config, ApplyMigration(i), old(site.world))
      ensures site.steady ==> !o.Killed?
    {
      hide SiteInv, Witnessed, Backed, Standing, ViewOf, Sent, Reached, Deliver, LedgerInv, Plan.LedgerAfter, Exclusive;
      BaselineIsTaken(site.terms, site.journal, site.world, site.trace);
      ghost var w, tr := site.world, site.trace;
      ghost var sent;
      o, code, sent := site.RunMigration(i, before);
      ApplyLawful(site.terms.config, site.View(), sent, i);
      hide Lawful, Recorded;
      OnlyExclusive(tr, i);
      ApplyKeeps(site.terms, site.journal, w, tr, sent, site.world);
      BackedEmit(site.terms.config, site.journal, site.written, tr, sent);
      assert sent in site.trace && Ran(sent, i, site.journal);
    }

    /** The database after the executor decides: a receipt, or a failure with whether it is definite. */
    method Receipted(i: nat, code: Option<int>) returns (o: Outcome<Code>)
      requires site.Inv() && i < |site.terms.config.plan.pending| && !site.View().steps.failed
      requires AppliedBefore(site.View(), i) && i !in site.View().steps.failures
      requires Apply(i) in site.View().steps.intents && Apply(i) !in site.View().steps.done
      requires exists m <- site.trace :: Ran(m, i, site.journal) && m.exit == code
      requires site.terms.soleWriter && code.Some? ==> site.world.applying == None
      requires site.terms.faithful ==> code == Some(0)
                                       && site.world.db.ledger == site.terms.config.plan.LedgerAfter(i + 1)
                                       && site.terms.config.plan.pending[i].indexes <= site.world.db.indexes
      modifies site`course, site`written, site`journal, site`world
      ensures site.Inv() && OnlySteps(old(site.View()), site.View(), {Apply(i)})
      ensures KeepsRest(old(site.View()), site.View())
      ensures o.Pass? ==> Apply(i) in site.View().steps.done
                          && code == Some(0) && AppliedCleanly(site.terms.config, i, site.world.db)
      ensures code != Some(0) || o.Refused? ==> Apply(i) !in site.View().steps.done
      ensures o.Refused? && o.code.MigrationRefused? ==>
                && i in site.View().steps.failures
                && Explains(site.terms.config, i, code, site.world.db, o.code.failure, site.View().steps.failures[i])
      ensures site.terms.faithful ==> !o.Refused?
      ensures site.steady ==> !o.Killed?
    {
      hide SiteInv, Witnessed, Backed, Standing, ViewOf, HostFacts, WindowFacts, StepFacts, MigrationFailure,
        Definite, Explains, AppliedCleanly, Fits, Shown, Justified, LedgerInv, Plan.LedgerAfter;
      var after;
      after :- ObserveDatabase();
      var failure := MigrationFailure(site.terms.config, i, code, after);
      SiteLedger(site.terms, site.journal, site.world, site.trace);
      OutcomeFits(site.terms, site.View(), site.world, i, code);
      if site.terms.faithful {
        FaithfulOutcome(site.terms, i, code, after);
      }
      if failure.Some? {
        var definite := Definite(site.terms.config.plan.pending[i], failure.value, after);
        :- site.Append(StepFailed(i, failure.value, definite));
        return Refused(MigrationRefused(failure.value));
      }
      o := site.Append(Done(Apply(i)));
    }

    method ApplyIntended(i: nat, ghost before: Database) returns (o: Outcome<Code>)
      requires site.Inv() && i < |site.terms.config.plan.pending|
      requires site.journal != [] && site.journal[|site.journal| - 1] == Intent(Apply(i))
      requires Marked(site.View()) && !site.View().steps.failed && AppliedBefore(site.View(), i)
      requires Apply(i) in site.View().steps.intents && Apply(i) !in site.View().steps.done
      requires i !in site.View().steps.failures && forall e <- site.trace :: e.op != ApplyMigration(i)
      requires ReadyFor(site.terms.config, i, before)
      requires site.terms.soleWriter || site.terms.faithful ==>
                 site.world.db.ledger == before.ledger && site.world.applying == None
      modifies site`course, site`written, site`journal, site`world, site`trace
      ensures site.Inv() && OnlySteps(old(site.View()), site.View(), {Apply(i)})
      ensures KeepsRest(old(site.View()), site.View())
      ensures o.Pass? ==> Apply(i) in site.View().steps.done && AppliedCleanly(site.terms.config, i, site.world.db)
      ensures o.Pass? ==> exists m <- site.trace :: m.op == ApplyMigration(i) && m.exit == Some(0)
      ensures o.Refused? && o.code.MigrationRefused? ==>
                && i in site.View().steps.failures && Apply(i) !in site.View().steps.done
                && exists m <- site.trace :: m.op == ApplyMigration(i)
                     && Explains(site.terms.config, i, m.exit, site.world.db, o.code.failure,
                                 site.View().steps.failures[i])
      ensures site.terms.faithful ==> !o.Refused?
      ensures site.steady ==> !o.Killed?
    {
      hide SiteInv, Witnessed, Backed, Standing, ViewOf, Plan.LedgerAfter, Site.Inv;
      LedgerStep(site.terms.config.plan, i);
      var code;
      code :- RunExecutor(i, before);
      o := Receipted(i, code);
    }

    method ApplyOne(i: nat) returns (o: Outcome<Code>)
      requires site.Inv() && Marked(site.View()) && !site.View().steps.failed && i < |site.terms.config.plan.pending|
      requires AppliedBefore(site.View(), i) && Apply(i) !in site.View().steps.done
      modifies site`course, site`written, site`journal, site`world, site`trace
      ensures site.Inv() && OnlySteps(old(site.View()), site.View(), {Apply(i)})
      ensures KeepsRest(old(site.View()), site.View())
      ensures o.Pass? ==> Apply(i) in site.View().steps.done && AppliedCleanly(site.terms.config, i, site.world.db)
      ensures o.Pass? ==> exists m <- site.trace :: m.op == ApplyMigration(i) && m.exit == Some(0)
      ensures Apply(i) in old(site.View()).steps.intents ==>
                o == Refused(OutcomeAmbiguous) && site.journal == old(site.journal) && site.trace == old(site.trace)
      ensures site.terms.faithful && Apply(i) !in old(site.View()).steps.intents ==> !o.Refused?
      ensures site.steady ==> !o.Killed?
    {
      hide SiteInv, Witnessed, Backed, Standing, ViewOf, ContainedNow, Plan.LedgerAfter;
      MarkedIsContained(site.terms, site.journal, site.world, site.trace);
      if Apply(i) in site.View().steps.intents { return Refused(OutcomeAmbiguous); }
      NotYetApplied(site.terms, site.journal, site.world, site.trace, i);
      var before;
      before :- ReadyToApply(i);
      :- IntendStep(Apply(i));
      assert site.journal[|site.journal| - 1] == Intent(Apply(i));
      o := ApplyIntended(i, before);
    }

    method Migrate() returns (o: Outcome<Code>)
      requires site.Inv() && Marked(site.View()) && !site.View().steps.failed
      modifies site`course, site`written, site`journal, site`world, site`trace
      ensures site.Inv()
      ensures OnlySteps(old(site.View()), site.View(), set i | 0 <= i < |site.terms.config.plan.pending| :: Apply(i))
      ensures o.Pass? ==> MigratedNow(site.terms.config, site.View(), site.world.db)
      ensures o.Pass? ==> AppliedBefore(site.View(), |site.terms.config.plan.pending|)
      ensures o.Pass? ==> forall k: nat :: k < |site.terms.config.plan.pending| ==> !Open(old(site.View()), Apply(k))
      ensures site.terms.faithful && NothingOpen(old(site.View())) ==> !o.Refused?
      ensures site.steady ==> !o.Killed?
    {
      hide SiteInv, Witnessed, Backed, Standing, ViewOf, Site.Inv;
      var n := |site.terms.config.plan.pending|;
      var i := 0;
      while i < n
        invariant 0 <= i <= n && site.Inv() && AppliedBefore(site.View(), i)
        invariant OnlySteps(old(site.View()), site.View(), set k | 0 <= k < n :: Apply(k))
        invariant KeepsRest(old(site.View()), site.View())
        invariant forall k: nat :: k < i ==> !Open(old(site.View()), Apply(k))
        invariant forall k :: i <= k < n ==>
                    (Apply(k) in site.View().steps.intents <==> Apply(k) in old(site.View()).steps.intents)
                    && (Apply(k) in site.View().steps.done <==> Apply(k) in old(site.View()).steps.done)
      {
        if Apply(i) !in site.View().steps.done {
          assert Apply(i) in site.View().steps.intents ==> Open(old(site.View()), Apply(i));
          :- ApplyOne(i);
        }
        i := i + 1;
      }
      o := ConfirmMigrated();
    }

    /** The whole ledger, and a catalog that no later run may find changed. */
    method ConfirmMigrated() returns (o: Outcome<Code>)
      requires site.Inv() && Marked(site.View()) && !site.View().steps.failed
      requires AppliedBefore(site.View(), |site.terms.config.plan.pending|)
      modifies site`course, site`written, site`journal, site`world
      ensures site.Inv()
      ensures site.View() == old(site.View()).(steps := old(site.View()).steps.(migrated := site.View().steps.migrated))
      ensures o.Pass? ==> MigratedNow(site.terms.config, site.View(), site.world.db)
      ensures site.terms.faithful ==> !o.Refused?
      ensures site.steady ==> !o.Killed?
    {
      hide SiteInv, Witnessed, Backed, Standing, ViewOf;
      var n := |site.terms.config.plan.pending|;
      var final;
      final :- ObserveDatabase();
      FinalLedgerKnown(site.terms, site.journal, site.world, site.trace);
      :- SameCheck(site.terms.config, final);
      if final.ledger != site.terms.config.plan.LedgerAfter(n) { return Refused(FinalLedger); }
      if site.View().steps.migrated.None? {
        o := site.Append(Migrated(final.catalog));
      } else {
        o := Require(site.View().steps.migrated.value == final.catalog, DdlDrift);
      }
    }

    /** The release layout is written or verified on every invocation; only its intent may be repeated. */
    method ReleaseLayout() returns (o: Outcome<Code>)
      requires site.Inv() && Marked(site.View()) && !site.View().steps.failed && site.View().steps.migrated.Some?
      modifies site`course, site`written, site`journal
      ensures site.Inv() && OnlySteps(old(site.View()), site.View(), {Layout})
      ensures KeepsRest(old(site.View()), site.View())
      ensures o.Pass? ==> Layout in site.View().steps.done
      ensures site.terms.faithful ==> !o.Refused?
      ensures site.steady ==> !o.Killed?
    {
      hide SiteInv, Witnessed, Backed, Standing, ViewOf;
      if Layout !in site.View().steps.done {
        :- site.Append(Intent(Layout));
      }
      :- site.Reading();
      if Layout in site.View().steps.done { return Pass; }
      o := site.Append(Done(Layout));
    }

    // -- the candidate ------------------------------------------------------------------------

    /** The four containers are created held, in an empty project, once. */
    method CreateCandidate() returns (o: Outcome<Code>)
      requires site.Inv() && Marked(site.View()) && !site.View().steps.failed
      requires Layout in site.View().steps.done && site.View().steps.crew.None?
      modifies site`course, site`written, site`journal, site`world, site`trace
      ensures site.Inv() && OnlySteps(old(site.View()), site.View(), {CreateHeld})
      ensures o.Pass? ==> site.View().steps.crew.Some?
      ensures CreateHeld in old(site.View()).steps.intents ==>
                o == Refused(CreateAmbiguous) && site.journal == old(site.journal) && site.trace == old(site.trace)
      ensures site.terms.faithful && CreateHeld !in old(site.View()).steps.intents ==> !o.Refused?
      ensures site.steady ==> !o.Killed?
    {
      hide SiteInv, Witnessed, Backed, Standing, ViewOf;
      MarkedIsContained(site.terms, site.journal, site.world, site.trace);
      if CreateHeld in site.View().steps.intents { return Refused(CreateAmbiguous); }
      var view: World;
      view :- host.AssertContained();
      view :- site.Observe();
      ghost var n := |site.course|;
      assert ContainedNow(site.View(), site.course[n - 2]) && site.course[n - 1] == view;
      NothingCreated(site.terms, site.journal, view, site.trace);
      if view.project != map[] || view.foreign != 0 { return Refused(ProjectNotEmpty); }
      CrewIsReceipt(site.terms, site.journal, view, site.trace);
      :- IntendStep(CreateHeld);
      o := CreateIntended(view);
    }

    method CreateIntended(view: World) returns (o: Outcome<Code>)
      requires site.Inv() && Open(site.View(), CreateHeld) && !site.View().steps.failed && site.journal != []
      requires view == site.world && view.project == map[] && view.foreign == 0
      requires site.View().host.init.Some? && site.journal[|site.journal| - 1] == Intent(CreateHeld)
      requires forall e <- site.trace :: !e.op.CreateCrew?
      modifies site`course, site`written, site`journal, site`world, site`trace
      ensures site.Inv() && OnlySteps(old(site.View()), site.View(), {CreateHeld})
      ensures o.Pass? ==> site.View().steps.crew.Some?
      ensures site.terms.faithful ==> !o.Refused?
      ensures site.steady ==> !o.Killed?
    {
      hide SiteInv, Witnessed, Backed, Standing, ViewOf, Lawful, Recorded, Reached;
      CreateLawful(site.terms.config, site.journal, view);
      :- site.Guarded(CreateCrew, view, None);
      CreatedCrew(site.terms.config, view);
      o := ConfirmCreated();
    }

    method ConfirmCreated() returns (o: Outcome<Code>)
      requires site.Inv() && Open(site.View(), CreateHeld) && !site.View().steps.failed
      modifies site`course, site`written, site`journal, site`world
      ensures site.Inv() && OnlySteps(old(site.View()), site.View(), {CreateHeld})
      ensures o.Pass? ==> site.View().steps.crew.Some?
      ensures (site.terms.faithful && old(site.world).foreign == 0
               && forall r: Role :: r in old(site.world).project
                                    && old(site.world).project[r] == NewContainer(old(site.world).project[r].id))
              ==> !o.Refused?
      ensures site.steady ==> !o.Killed?
    {
      hide SiteInv, Witnessed, Backed, Standing, ViewOf;
      var view;
      view :- site.Observe();
      if view.foreign != 0 || !(forall r: Role :: r in view.project) { return Refused(CreateScope); }
      if !(forall r: Role :: view.project[r].pinned) { return Refused(CandidateMismatch); }
      var crew := CrewOf(view);
      if !(forall r: Role :: Held(view.project[r], crew.At(r))) { return Refused(NotHeld); }
      o := site.Append(CandidateCreated(crew));
    }

    /** Consumers never started, the backend as journaled, the legacy still contained. */
    method CheckHeld(backend: Option<nat>) returns (o: Outcome<Code>, seen: World)
      requires site.Inv() && Marked(site.View()) && site.View().steps.crew.Some?
      modifies site`course, site`world
      ensures site.Inv()
      ensures o.Pass? ==> CandidateStands(seen, site.View().steps.crew.value, backend)
      ensures o.Pass? ==> ContainedNow(site.View(), site.world)
      ensures o.Pass? ==> Grown(old(site.course), site.course)
                          && HeldBetween(site.View(), backend, site.course, |old(site.course)|, |site.course|)
      ensures site.terms.faithful ==> site.world == old(site.world)
      ensures (site.terms.faithful && backend == site.View().steps.backendStart
               && (backend.None? ==> StartBackend !in site.View().steps.intents)) ==> !o.Refused?
      ensures site.steady ==> !o.Killed?
    {
      hide SiteInv, Witnessed, Backed, Standing, ViewOf, ContainedNow, CandidateStands;
      MarkedIsContained(site.terms, site.journal, site.world, site.trace);
      o, seen := site.Observe();
      if !o.Pass? { return; }
      FaithfulCandidate(site.terms, site.journal, seen, site.trace);
      o := CandidateCheck(seen, site.View().steps.crew.value, backend);
      if !o.Pass? { return; }
      var view;
      o, view := host.AssertContained();
      if o.Pass? {
        ghost var n := |site.course|;
        assert site.course[n - 2] == seen && site.course[n - 1] == view;
      }
    }

    method StartCandidateBackend() returns (o: Outcome<Code>)
      requires site.Inv() && Marked(site.View()) && !site.View().steps.failed
      requires site.View().steps.crew.Some? && site.View().steps.backendStart.None?
      requires CrewLook(site.View(), site.course)
      modifies site`course, site`written, site`journal, site`world, site`trace
      ensures site.Inv() && OnlySteps(old(site.View()), site.View(), {StartBackend})
      ensures site.View().steps.crew == old(site.View()).steps.crew
      ensures o.Pass? ==> site.View().steps.backendStart.Some?
      ensures StartBackend in old(site.View()).steps.intents ==>
                o == Refused(StartAmbiguous) && site.journal == old(site.journal) && site.trace == old(site.trace)
      ensures site.terms.faithful && StartBackend !in old(site.View()).steps.intents ==> !o.Refused?
      ensures site.steady ==> !o.Killed?
    {
      hide SiteInv, Witnessed, Backed, Standing, ViewOf, ContainedNow, CandidateStands;
      MarkedIsContained(site.terms, site.journal, site.world, site.trace);
      CrewIsReceipt(site.terms, site.journal, site.world, site.trace);
      if StartBackend in site.View().steps.intents { return Refused(StartAmbiguous); }
      var seen: World;
      ghost var v, before := site.View(), site.course;
      seen :- CheckHeld(None);
      CrewStays(v, before, site.course);
      HeldStays(v, None, site.course, site.course, |before|, |site.course|, 0);
      NothingStarted(site.terms, site.journal, site.world, site.trace);
      FaithfulCrewStands(site.terms, site.journal, site.world, site.trace);
      :- IntendStep(StartBackend);
      o := StartIntended();
    }

    method StartIntended() returns (o: Outcome<Code>)
      requires site.Inv() && Open(site.View(), StartBackend) && !site.View().steps.failed
      requires site.View().steps.crew.Some? && site.View().host.init.Some?
      requires site.journal != [] && site.journal[|site.journal| - 1] == Intent(StartBackend)
      requires forall e <- site.trace :: !e.op.StartCandidate?
      requires site.terms.faithful ==> Backend in site.world.project
                                       && Held(site.world.project[Backend], site.View().steps.crew.value.At(Backend))
      modifies site`course, site`written, site`journal, site`world, site`trace
      ensures site.Inv() && OnlySteps(old(site.View()), site.View(), {StartBackend})
      ensures site.View().steps.crew == old(site.View()).steps.crew
      ensures o.Pass? ==> site.View().steps.backendStart.Some?
      ensures site.terms.faithful ==> !o.Refused?
      ensures site.steady ==> !o.Killed?
    {
      hide SiteInv, Witnessed, Backed, Standing, ViewOf, Lawful, Recorded;
      StartCandidateLawful(site.terms.config, site.journal, site.world);
      :- site.Guarded(StartCandidate, site.world, None);
      o := ConfirmStarted();
    }

    method ConfirmStarted() returns (o: Outcome<Code>)
      requires site.Inv() && Open(site.View(), StartBackend) && !site.View().steps.failed
      requires site.View().steps.crew.Some?
      modifies site`course, site`written, site`journal, site`world
      ensures site.Inv() && OnlySteps(old(site.View()), site.View(), {StartBackend})
      ensures site.View().steps.crew == old(site.View()).steps.crew
      ensures o.Pass? ==> site.View().steps.backendStart.Some?
      ensures (site.terms.faithful && Backend in old(site.world).project && Running(old(site.world).project[Backend]))
              ==> !o.Refused?
      ensures site.steady ==> !o.Killed?
    {
      hide SiteInv, Witnessed, Backed, Standing, ViewOf;
      FaithfulCrewStands(site.terms, site.journal, site.world, site.trace);
      var view;
      view :- site.Observe();
      var crew := site.View().steps.crew.value;
      if !(forall r: Role :: r in view.project && view.project[r].id == crew.At(r).id) { return Refused(PortFailed); }
      if !(forall r: Role :: view.project[r].pinned) { return Refused(CandidateMismatch); }
      if !Running(view.project[Backend]) { return Refused(BackendNotRunning); }
      o := site.Append(BackendStarted(view.project[Backend].started));
    }

    /** The candidate up to A9: created held, only the backend started and smoked, twice re-checked. */
    method A9() returns (o: Outcome<Code>, seen: World, ghost listed: World)
      requires site.Inv() && Marked(site.View()) && !site.View().steps.failed && Layout in site.View().steps.done
      modifies site`course, site`written, site`journal, site`world, site`trace
      ensures site.Inv() && OnlySteps(old(site.View()), site.View(), {CreateHeld, StartBackend})
      ensures o.Pass? ==> Smoked(site.View(), site.world, seen)
      ensures o.Pass? ==> ProjectIsCrew(listed, site.View().steps.crew.value)
      ensures o.Pass? ==> !Open(old(site.View()), CreateHeld) && !Open(old(site.View()), StartBackend)
      ensures site.terms.faithful && !Open(old(site.View()), CreateHeld) && !Open(old(site.View()), StartBackend)
              ==> !o.Refused?
      ensures site.steady ==> !o.Killed?
    {
      hide SiteInv, Witnessed, Backed, Standing, ViewOf, ContainedNow, CandidateStands;
      CrewIsReceipt(site.terms, site.journal, site.world, site.trace);
      seen, listed := site.world, site.world;
      if site.View().steps.crew.None? {
        o := CreateCandidate();
        if !o.Pass? { return; }
      }
      CrewIsReceipt(site.terms, site.journal, site.world, site.trace);
      var view;
      o, view := site.Observe();
      if !o.Pass? { return; }
      FaithfulCrewStands(site.terms, site.journal, view, site.trace);
      if !ProjectIsCrew(view, site.View().steps.crew.value) { return Refused(ProjectChanged), seen, listed; }
      listed := view;
      assert site.course[|site.course| - 1] == view;
      if site.View().steps.backendStart.None? {
        o := StartCandidateBackend();
        if !o.Pass? { return; }
      }
      o, seen := SmokeAndHold();
    }

    method SmokeAndHold() returns (o: Outcome<Code>, seen: World)
      requires site.Inv() && Marked(site.View()) && !site.View().steps.failed
      requires site.View().steps.crew.Some? && site.View().steps.backendStart.Some?
      modifies site`course, site`written, site`journal, site`world
      ensures site.Inv()
      ensures site.View() == old(site.View()).(steps := old(site.View()).steps.(complete := site.View().steps.complete))
      ensures o.Pass? ==> Smoked(site.View(), site.world, seen)
      ensures site.terms.faithful ==> !o.Refused?
      ensures site.steady ==> !o.Killed?
    {
      hide SiteInv, Witnessed, Backed, Standing, ViewOf, ContainedNow, CandidateStands, HeldBetween, TwiceHeld;
      CrewIsReceipt(site.terms, site.journal, site.world, site.trace);
      ghost var v, before := site.View(), site.course;
      o, seen := CheckHeld(site.View().steps.backendStart);
      if !o.Pass? { return; }
      ghost var between := site.course;
      o := site.Reading();
      if !o.Pass? { return; }
      o, seen := CheckHeld(site.View().steps.backendStart);
      if !o.Pass? { return; }
      HeldTwice(v, |before|, between, site.course);
      o := MarkComplete();
      CompleteKeepsContained(v, site.View(), site.world);
    }

    method MarkComplete() returns (o: Outcome<Code>)
      requires site.Inv() && StartBackend in site.View().steps.done && !site.View().steps.failed
      requires TwiceHeld(site.View(), site.course)
      modifies site`course, site`written, site`journal
      ensures site.Inv() && (site.terms.faithful ==> !o.Refused?)
      ensures site.View() == old(site.View()).(steps := old(site.View()).steps.(complete := site.View().steps.complete))
      ensures o.Pass? ==> site.View().steps.complete
      ensures site.steady ==> !o.Killed?
    {
      hide SiteInv, Witnessed, Backed, Standing, ViewOf;
      if site.View().steps.complete { return Pass; }
      o := site.Append(Complete);
    }

    // -- a run ---------------------------------------------------------------------------------

    method AfterMarker() returns (o: Outcome<Code>, seen: World)
      requires site.Inv() && Marked(site.View()) && !site.View().steps.failed
      modifies site`course, site`written, site`journal, site`world, site`trace
      ensures site.Inv() && site.View() == old(site.View()).(steps := site.View().steps)
      ensures !site.View().steps.failed
      ensures o.Pass? ==> Smoked(site.View(), site.world, seen)
                          && AppliedBefore(site.View(), |site.terms.config.plan.pending|)
      ensures site.terms.faithful && NothingOpen(old(site.View())) ==> !o.Refused?
      ensures !NothingOpen(old(site.View())) ==> !o.Pass?
      ensures site.steady ==> !o.Killed?
    {
      hide SiteInv, Witnessed, Backed, Standing, ViewOf, Smoked;
      NoStrayIntents(site.terms, site.journal, site.world, site.trace);
      ghost var v := site.View();
      seen := site.world;
      o := Migrate();
      if !o.Pass? { return; }
      o := ReleaseLayout();
      if !o.Pass? { return; }
      assert Open(v, CreateHeld) <==> Open(site.View(), CreateHeld);
      assert Open(v, StartBackend) <==> Open(site.View(), StartBackend);
      ghost var listed;
      o, seen, listed := A9();
    }

    /** One invocation. The first to journal its inputs makes them the configuration of the site; others must give
        the same. A refusal after the marker is final and recorded; a kill records nothing. */
    method Run(inputs: Config) returns (o: Outcome<Code>, seen: World)
      requires site.Inv() && (site.View().window.init.None? ==> inputs == site.terms.config)
      modifies site`course, site`written, site`journal, site`world, site`trace
      ensures site.Inv()
      ensures o.Pass? ==> Marked(site.View()) && Smoked(site.View(), site.world, seen)
                          && AppliedBefore(site.View(), |site.terms.config.plan.pending|)
      ensures o.Refused? && o.code != JournalWrite && Marked(site.View()) && inputs == site.terms.config ==>
                site.View().steps.failed
      ensures Resuming(site.View()) ==> Resuming(old(site.View()))
      ensures inputs != site.terms.config || Resuming(old(site.View())) || old(site.View()).steps.failed ==>
                !o.Pass? && site.trace == old(site.trace) && site.world == old(site.world)
      ensures site.steady ==> !o.Killed?
      ensures site.terms.faithful && site.steady ==>
                (o.Pass? <==> Runnable(site.terms.config, inputs, old(site.View()), old(site.world)))
    {
      ghost var v := site.View();
      hide SiteInv, Witnessed, Backed, Standing, ViewOf, Smoked, Stuck, Site.Inv;
      seen := site.world;
      o := Init(inputs);
      SameStuck(v, site.View(), site.world, site.world);
      assert forall s :: Open(v, s) <==> Open(site.View(), s);
      if !o.Pass? { return; }
      o, seen := Attempt();
    }

    method Attempt() returns (o: Outcome<Code>, seen: World)
      requires site.Inv()
      modifies site`course, site`written, site`journal, site`world, site`trace
      ensures site.Inv()
      ensures o.Pass? ==> Marked(site.View()) && Smoked(site.View(), site.world, seen)
                          && AppliedBefore(site.View(), |site.terms.config.plan.pending|)
      ensures o.Refused? && o.code != JournalWrite && Marked(site.View()) ==> site.View().steps.failed
      ensures Resuming(site.View()) ==> Resuming(old(site.View()))
      ensures Resuming(old(site.View())) || old(site.View()).steps.failed ==>
                !o.Pass? && site.trace == old(site.trace) && site.world == old(site.world)
      ensures site.steady ==> !o.Killed?
      ensures site.terms.faithful && site.steady ==>
                (o.Pass? <==> Runnable(site.terms.config, site.terms.config, old(site.View()), old(site.world)))
    {
      hide SiteInv, Witnessed, Backed, Standing, ViewOf, Smoked, Stuck, NothingOpen;
      MarkerExcludesResume(site.terms, site.journal, site.world, site.trace);
      seen := site.world;
      if Resuming(site.View()) { return Refused(LegacyResumeStarted), seen; }
      if site.View().steps.failed { return Refused(Stopped), seen; }
      o := Pass;
      if !Marked(site.View()) {
        NothingOpenYet(site.terms, site.journal, site.world, site.trace);
        ghost var v := site.View();
        o := UpToMarker();
        SameStepsOpen(v, site.View());
        if !o.Pass? { return; }
      }
      o, seen := AfterMarker();
      if o.Refused? {
        var recorded := site.Append(Failed);
        if !recorded.Pass? { o := recorded; }
      }
    }

    /** Pre-DDL only: no marker and no step of a transition in the journal. */
    method ResumeLegacy(confirmation: int, allowDrift: bool) returns (o: Outcome<Code>)
      requires site.Inv()
      modifies site`course, site`written, site`journal, site`world, site`trace
      ensures site.Inv() && OnlyResumed(old(site.View()), site.View())
      ensures Marked(old(site.View())) ==>
                o == Refused(PostDdlResumeForbidden) && site.journal == old(site.journal)
                && site.trace == old(site.trace) && site.world == old(site.world)
      ensures var v := old(site.View());
              Marked(v) || !v.host.contained || v.host.init.None?
              || (!Resuming(v) && confirmation != v.host.init.value.fingerprint) ==>
                && o.Refused? && site.journal == old(site.journal) && site.trace == old(site.trace)
                && site.world == old(site.world)
      ensures o.Pass? ==> site.View().host.resumed && LegacyBack(site.View(), site.world)
      ensures !allowDrift ==> site.View().host.drift == old(site.View()).host.drift
      ensures site.steady ==> !o.Killed?
      ensures site.terms.faithful && site.steady ==>
                var v := old(site.View());
                (o.Pass? <==>
                  && !Marked(v) && v.host.contained && v.host.init.Some?
                  && (Resuming(v) || confirmation == v.host.init.value.fingerprint))
    {
      hide SiteInv, Witnessed, Backed, Standing, ViewOf;
      SiteFacts(site.terms, site.journal, site.world, site.trace);
      if Marked(site.View()) || site.View().steps.intents != {} { return Refused(PostDdlResumeForbidden); }
      o := host.ResumeLegacy(confirmation, None, allowDrift);
    }
  }

  // -- what the stages before the marker rest on --------------------------------------------------

  lemma SiteFacts(t: Terms, j: seq<Event>, w: World, trace: seq<Emission>)
    requires SiteInv(t, j, w, trace)
    ensures Facts(t.config, ViewOf(j), |j|)
    ensures ViewOf(j).host.contained ==> ViewOf(j).host.init.Some? && ViewOf(j).host.settled.Some?
  {
    FactsHold(t.config, j);
    if ViewOf(j).host.contained {
      assert AllTermsDone(ViewOf(j)) && Term(Backend) in ViewOf(j).host.done;
    }
  }

  lemma FaithfulDatabase(t: Terms, j: seq<Event>, w: World, trace: seq<Emission>)
    requires SiteInv(t, j, w, trace)
    ensures t.faithful ==> Same(t.config, w.db) && w.db.invalid == {} && w.db.builds == 0 && Quiet(w.db)
    ensures t.faithful && !Marked(ViewOf(j)) ==> DdlFree(t.config, w.db)
  {
    FactsHold(t.config, j);
  }

  lemma NoBackupAsked(t: Terms, j: seq<Event>, w: World, trace: seq<Emission>)
    requires SiteInv(t, j, w, trace) && ViewOf(j).window.request.None?
    ensures forall e <- trace :: !e.op.AskBackup?
  {
    hide ViewOf, Lawful;
  }

  lemma AskLawful(c: Config, j: seq<Event>, w: World, q: Request)
    requires ViewOf(j).host.init.Some? && ViewOf(j).host.contained && !Marked(ViewOf(j)) && !Resuming(ViewOf(j))
    requires j != [] && j[|j| - 1] == BackupRequested(q) && ViewOf(j).window.request.Some?
    ensures Lawful(c, Emission(AskBackup(q), j, w, None, w, false, None)) && Recorded(ViewOf(j), AskBackup(q))
  {
    hide ViewOf;
  }

  /** The journaled receipt held against its own window; the provider is never called here. */
  function StoredBackup(c: Config, v: View): (o: Outcome<Code>) {
    var q, r, b := v.window.quiescent, v.window.request, v.window.backup;
    if q.None? then Refused(NotQuiescent)
    else if r.None? || b.None? || r.value.at <= q.value.at || b.value.at <= r.value.at
            || r.value.of.quiescence != q.value || b.value.of.request != Some(r.value.of) then Refused(BackupUnbound)
    else if !ValidReceipt(c, b.value.of) then Refused(CloneReceiptInvalid)
    else if b.value.of.id.None? then Refused(BackupUnbound)
    else Pass
  }

  /** On every journal that can be written the re-validation passes exactly when a backup was received. */
  lemma StoredBackupHolds(c: Config, v: View, n: nat)
    requires Facts(c, v, n)
    ensures StoredBackup(c, v).Pass? <==> v.window.backup.Some?
    ensures !StoredBackup(c, v).Killed?
  {
  }

  // -- what the migrations rest on -----------------------------------------------------------------

  ghost predicate KeepsRest(v: View, v': View) {
    && v'.steps.crew == v.steps.crew && v'.steps.backendStart == v.steps.backendStart
    && v'.steps.migrated == v.steps.migrated && v'.steps.complete == v.steps.complete
  }

  lemma MarkedIsContained(t: Terms, j: seq<Event>, w: World, trace: seq<Emission>)
    requires SiteInv(t, j, w, trace) && Marked(ViewOf(j))
    ensures !Resuming(ViewOf(j)) && ViewOf(j).host.contained && ViewOf(j).host.init.Some?
    ensures ViewOf(j).host.settled.Some?
    ensures forall i: nat :: i in ViewOf(j).steps.failures ==> Apply(i) in ViewOf(j).steps.intents
  {
    SiteFacts(t, j, w, trace);
  }

  lemma NotYetApplied(t: Terms, j: seq<Event>, w: World, trace: seq<Emission>, i: nat)
    requires SiteInv(t, j, w, trace) && Apply(i) !in ViewOf(j).steps.intents
    ensures forall e <- trace :: e.op != ApplyMigration(i)
  {
    hide ViewOf, Lawful;
  }

  lemma SiteLedger(t: Terms, j: seq<Event>, w: World, trace: seq<Emission>)
    requires SiteInv(t, j, w, trace)
    ensures StepFacts(t.config, ViewOf(j))
    ensures t.soleWriter ==> LedgerInv(t.config, ViewOf(j), w, t.origin)
    ensures t.faithful ==> t.soleWriter && t.origin.db.ledger == t.config.plan.baseline
    ensures t.faithful && ViewOf(j).steps.migrated.Some? ==> ViewOf(j).steps.migrated.value == w.db.catalog
  {
    FactsHold(t.config, j);
  }

  lemma BaselineIsTaken(t: Terms, j: seq<Event>, w: World, trace: seq<Emission>)
    requires SiteInv(t, j, w, trace) && Marked(ViewOf(j))
    ensures ViewOf(j).host.init.Some?
  {
    MarkedIsContained(t, j, w, trace);
  }

  lemma ApplyLawful(c: Config, v: View, e: Emission, i: nat)
    requires e.op == ApplyMigration(i) && ViewOf(e.past) == v && i < |c.plan.pending| && v.host.init.Some?
    requires e.past != [] && e.past[|e.past| - 1] == Intent(Apply(i))
    requires Marked(v) && !v.steps.failed && AppliedBefore(v, i) && Apply(i) in v.steps.intents
    requires Apply(i) !in v.steps.done
    requires e.proof.Some? && ReadyFor(c, i, e.proof.value)
    ensures Lawful(c, e) && Recorded(v, e.op)
  {
    hide ViewOf;
  }

  lemma OnlyExclusive(trace: seq<Emission>, i: nat)
    requires forall e <- trace :: e.op != ApplyMigration(i)
    ensures forall e <- trace :: !Exclusive(e.op, ApplyMigration(i))
  {
  }

  /** Between migrations the ledger cannot move: no executor is left that could commit. */
  lemma LedgerKnown(t: Terms, j: seq<Event>, w: World, trace: seq<Emission>, i: nat)
    requires SiteInv(t, j, w, trace) && i < |t.config.plan.pending|
    requires AppliedBefore(ViewOf(j), i) && Apply(i) !in ViewOf(j).steps.intents
    ensures t.soleWriter ==>
              w.applying == None && w.db.ledger == if i == 0 then t.origin.db.ledger else t.config.plan.LedgerAfter(i)
    ensures t.faithful ==> t.soleWriter && w.db.ledger == t.config.plan.LedgerAfter(i)
  {
    SiteLedger(t, j, w, trace);
    hide SiteInv, Witnessed, Backed, Standing, ViewOf;
    AppliedIsPrefix(t.config, ViewOf(j));
  }

  lemma FinalLedgerKnown(t: Terms, j: seq<Event>, w: World, trace: seq<Emission>)
    requires SiteInv(t, j, w, trace) && AppliedBefore(ViewOf(j), |t.config.plan.pending|)
    ensures t.faithful ==> w.db.ledger == t.config.plan.LedgerAfter(|t.config.plan.pending|)
    ensures t.faithful && ViewOf(j).steps.migrated.Some? ==> ViewOf(j).steps.migrated.value == w.db.catalog
  {
    SiteLedger(t, j, w, trace);
    hide SiteInv, Witnessed, Backed, Standing, ViewOf;
    AppliedIsPrefix(t.config, ViewOf(j));
  }

  /** An intended migration is the one after the receipted prefix; the ledger stands before it or past it. */
  lemma OpenLedger(t: Terms, v: View, w: World, i: nat)
    requires StepFacts(t.config, v) && i < |t.config.plan.pending| && AppliedBefore(v, i)
    requires Apply(i) in v.steps.intents && Apply(i) !in v.steps.done
    ensures v.steps.applied == i
    ensures t.soleWriter && LedgerInv(t.config, v, w, t.origin) ==>
              w.db.ledger == t.config.plan.LedgerAfter(i)
              || (w.db.ledger == t.config.plan.LedgerAfter(i) + {t.config.plan.pending[i].name} && w.applying == None)
  {
    AppliedIsPrefix(t.config, v);
    LedgerStep(t.config.plan, i);
  }

  /** The event that records the outcome is written for what the database then shows. */
  lemma OutcomeFits(t: Terms, v: View, w: World, i: nat, code: Option<int>)
    requires StepFacts(t.config, v) && i < |t.config.plan.pending| && AppliedBefore(v, i) && !v.steps.failed
    requires Apply(i) in v.steps.intents && Apply(i) !in v.steps.done && i !in v.steps.failures
    requires t.soleWriter ==> LedgerInv(t.config, v, w, t.origin)
    requires t.soleWriter && code.Some? ==> w.applying == None
    ensures var f := MigrationFailure(t.config, i, code, w.db);
            var e := if f.None? then Done(Apply(i))
                     else StepFailed(i, f.value, Definite(t.config.plan.pending[i], f.value, w.db));
            Justified(t.config, v, e) && Fits(t, v, w, e) && forall course :: Shown(t.config, v, w, course, e)
    ensures MigrationFailure(t.config, i, code, w.db).None? <==> code == Some(0) && AppliedCleanly(t.config, i, w.db)
    ensures MigrationFailure(t.config, i, code, w.db).Some? ==>
              var f := MigrationFailure(t.config, i, code, w.db).value;
              Explains(t.config, i, code, w.db, f, Definite(t.config.plan.pending[i], f, w.db))
  {
    LedgerStep(t.config.plan, i);
    var f := MigrationFailure(t.config, i, code, w.db);
    if f.Some? {
      assert Explains(t.config, i, code, w.db, f.value, Definite(t.config.plan.pending[i], f.value, w.db));
    }
    OpenLedger(t, v, w, i);
    hide StepFacts, LedgerInv, SameCheck, Plan.LedgerAfter;
  }

  lemma FaithfulOutcome(t: Terms, i: nat, code: Option<int>, db: Database)
    requires i < |t.config.plan.pending| && code == Some(0)
    requires Same(t.config, db) && db.invalid == {} && db.builds == 0
    requires db.ledger == t.config.plan.LedgerAfter(i + 1) && t.config.plan.pending[i].indexes <= db.indexes
    ensures MigrationFailure(t.config, i, code, db).None?
  {
    LedgerStep(t.config.plan, i);
  }

  // -- what the candidate rests on ------------------------------------------------------------------

  /** A9 reached: the last look at the candidate showed only the backend running, on its receipted start,
      and the legacy was still contained after it. */
  ghost predicate Smoked(v: View, w: World, seen: World) {
    && v.steps.complete && v.steps.crew.Some? && v.steps.backendStart.Some?
    && CandidateStands(seen, v.steps.crew.value, v.steps.backendStart)
    && ContainedNow(v, w)
  }

  lemma CompleteKeepsContained(v: View, v': View, w: World)
    requires v' == v.(steps := v'.steps)
    ensures ContainedNow(v', w) <==> ContainedNow(v, w)
  {
  }

  lemma MarkerExcludesResume(t: Terms, j: seq<Event>, w: World, trace: seq<Emission>)
    requires SiteInv(t, j, w, trace)
    ensures !(Marked(ViewOf(j)) && Resuming(ViewOf(j)))
  {
    FactsHold(t.config, j);
  }

  lemma NoStrayIntents(t: Terms, j: seq<Event>, w: World, trace: seq<Emission>)
    requires SiteInv(t, j, w, trace)
    ensures forall k: nat :: Apply(k) in ViewOf(j).steps.intents ==> k < |t.config.plan.pending|
  {
    FactsHold(t.config, j);
  }

  lemma SameStepsOpen(v: View, v': View)
    requires v'.steps == v.steps
    ensures NothingOpen(v') <==> NothingOpen(v)
  {
    assert forall s :: Open(v', s) <==> Open(v, s);
  }

  lemma NothingOpenYet(t: Terms, j: seq<Event>, w: World, trace: seq<Emission>)
    requires SiteInv(t, j, w, trace) && !Marked(ViewOf(j))
    ensures ViewOf(j).steps.intents == {} && NothingOpen(ViewOf(j)) && !ViewOf(j).steps.failed
  {
    FactsHold(t.config, j);
  }

  lemma NothingCreated(t: Terms, j: seq<Event>, w: World, trace: seq<Emission>)
    requires SiteInv(t, j, w, trace) && CreateHeld !in ViewOf(j).steps.intents
    ensures forall e <- trace :: !e.op.CreateCrew?
    ensures t.faithful ==> w.project == map[] && w.foreign == 0
  {
    hide ViewOf, Lawful, HostFollows, LedgerInv, DatabaseFollows;
  }

  lemma NothingStarted(t: Terms, j: seq<Event>, w: World, trace: seq<Emission>)
    requires SiteInv(t, j, w, trace) && StartBackend !in ViewOf(j).steps.intents
    ensures forall e <- trace :: !e.op.StartCandidate?
  {
    hide ViewOf, Lawful;
  }

  lemma CrewIsReceipt(t: Terms, j: seq<Event>, w: World, trace: seq<Emission>)
    requires SiteInv(t, j, w, trace)
    ensures ViewOf(j).steps.crew.Some? <==> CreateHeld in ViewOf(j).steps.done
    ensures ViewOf(j).steps.backendStart.Some? <==> StartBackend in ViewOf(j).steps.done
    ensures StartBackend in ViewOf(j).steps.intents ==> CreateHeld in ViewOf(j).steps.done
    ensures ViewOf(j).steps.backendStart.Some? ==> ViewOf(j).steps.crew.Some?
    ensures CreateHeld in ViewOf(j).steps.done ==> CreateHeld in ViewOf(j).steps.intents
    ensures StartBackend in ViewOf(j).steps.done ==> StartBackend in ViewOf(j).steps.intents
  {
    FactsHold(t.config, j);
  }

  lemma FaithfulCrewStands(t: Terms, j: seq<Event>, w: World, trace: seq<Emission>)
    requires SiteInv(t, j, w, trace)
    ensures t.faithful && ViewOf(j).steps.crew.Some? ==> ProjectIsCrew(w, ViewOf(j).steps.crew.value)
    ensures t.faithful && ViewOf(j).steps.crew.Some? ==>
              forall r: Role :: r in w.project && (r != Backend || StartBackend !in ViewOf(j).steps.intents ==>
                Held(w.project[r], ViewOf(j).steps.crew.value.At(r)))
  {
    hide ViewOf, HostFollows, LedgerInv, DatabaseFollows, WellFormed;
  }

  lemma FaithfulCandidate(t: Terms, j: seq<Event>, w: World, trace: seq<Emission>)
    requires SiteInv(t, j, w, trace) && ViewOf(j).steps.crew.Some?
    ensures t.faithful && (ViewOf(j).steps.backendStart.None? ==> StartBackend !in ViewOf(j).steps.intents) ==>
              CandidateStands(w, ViewOf(j).steps.crew.value, ViewOf(j).steps.backendStart)
  {
    hide ViewOf, HostFollows, LedgerInv, DatabaseFollows, WellFormed;
  }

  lemma CreatedCrew(c: Config, w: World)
    ensures var w' := Deliver(c, CreateCrew, w);
            w'.foreign == w.foreign
            && forall r: Role :: r in w'.project && w'.project[r] == NewContainer(w'.project[r].id)
  {
    var w' := Deliver(c, CreateCrew, w);
    forall r: Role
      ensures r in w'.project && w'.project[r] == NewContainer(w'.project[r].id)
    {
      match r case Backend => case Cron => case Broadcast => case QueueWorker =>
    }
  }

  lemma CreateLawful(c: Config, j: seq<Event>, w: World)
    requires ViewOf(j).host.init.Some? && w.project == map[] && w.foreign == 0
    requires Open(ViewOf(j), CreateHeld) && j != [] && j[|j| - 1] == Intent(CreateHeld)
    ensures Lawful(c, Emission(CreateCrew, j, w, None, w, false, None)) && Recorded(ViewOf(j), CreateCrew)
  {
    hide ViewOf;
  }

  lemma StartCandidateLawful(c: Config, j: seq<Event>, w: World)
    requires ViewOf(j).host.init.Some? && ViewOf(j).steps.crew.Some?
    requires Open(ViewOf(j), StartBackend) && j != [] && j[|j| - 1] == Intent(StartBackend)
    ensures Lawful(c, Emission(StartCandidate, j, w, None, w, false, None)) && Recorded(ViewOf(j), StartCandidate)
  {
    hide ViewOf;
  }
}
