/** What a site keeps whatever the environment, the effects and a kill do to it. */
module FirstTransitionInvariant {
  import opened Outcomes
  import opened Roles
  import opened FirstTransitionJournal
  import opened FirstTransitionTheorems
  import opened FirstTransitionSite

  /** What a claim about a site rests on: its configuration and the named assumptions. `adjacent`: nothing
      happens between the final snapshot a guard judged and the effect it let through. `soleWriter`: only
      the executor writes the ledger. `faithful`: nothing but the controllers acts, every call does what
      it says, and the site was healthy at `origin`. */
  datatype Terms = Terms(config: Config, origin: World, adjacent: bool, soleWriter: bool, faithful: bool) {

    ghost predicate Valid() {
      faithful ==> adjacent && soleWriter
    }
  }

  /** Every emission was lawful when it was made, its intent is journaled, no two exclude each other, and the
      journal only grew between them. */
  ghost predicate TraceInv(c: Config, j: seq<Event>, trace: seq<Emission>) {
    && (forall e <- trace :: e.past <= j && Lawful(c, e) && Recorded(ViewOf(j), e.op))
    && (forall i, k :: 0 <= i < k < |trace| ==>
          !Exclusive(trace[i].op, trace[k].op) && trace[i].past <= trace[k].past)
  }

  ghost predicate StampsInv(v: View, w: World) {
    w.Clocked() && (v.host.init.Some? ==> forall r: Role :: v.host.init.value.started.At(r) < w.clock)
  }

  /** A container whose start took effect no longer carries the stamp it was contained with. */
  ghost predicate StartsInv(v: View, trace: seq<Emission>, w: World) {
    && (forall e <- trace :: e.took && e.op.StartService? && v.host.init.Some? ==>
          w.services.At(e.op.role).started != v.host.init.value.started.At(e.op.role))
    && (forall i, k :: 0 <= i < k < |trace| && trace[i].took && trace[k].took && trace[i].op.StartService?
                       ==> trace[i].op != trace[k].op)
  }

  ghost predicate Follows(c: Config, v: View, o: World, w: World) {
    && Healthy(c, o)
    && HostFollows(v, o, w)
    && DatabaseFollows(c, v, o, w)
    && CandidateFollows(v, w)
  }

  ghost predicate WorldInv(t: Terms, v: View, w: World, trace: seq<Emission>) {
    && StampsInv(v, w)
    && (t.adjacent ==> StartsInv(v, trace, w))
    && (t.soleWriter ==> LedgerInv(t.config, v, w, t.origin))
    && (t.faithful ==> Follows(t.config, v, t.origin, w))
  }

  ghost predicate SiteInv(t: Terms, j: seq<Event>, w: World, trace: seq<Emission>) {
    && t.Valid() && t.config.plan.Valid()
    && WellFormed(t.config, j)
    && TraceInv(t.config, j, trace)
    && WorldInv(t, ViewOf(j), w, trace)
  }

  // -- the environment moves -----------------------------------------------------------

  /** In a faithful site nothing moves by itself; elsewhere whatever is admissible may happen. */
  predicate Moves(t: Terms, w: World, w': World) {
    Admissible(t.config, t.soleWriter, w, w') && (t.faithful ==> w' == w)
  }

  lemma MovesKeepStarts(t: Terms, v: View, trace: seq<Emission>, w: World, w': World)
    requires Moves(t, w, w') && StampsInv(v, w)
    ensures StampsInv(v, w')
    ensures StartsInv(v, trace, w) ==> StartsInv(v, trace, w')
  {
    forall r: Role
      ensures w'.services.At(r).started < w'.clock
    {
      assert w.services.At(r).started < w.clock;
    }
    if StartsInv(v, trace, w) && v.host.init.Some? {
      forall e <- trace | e.took && e.op.StartService?
        ensures w'.services.At(e.op.role).started != v.host.init.value.started.At(e.op.role)
      {
        assert v.host.init.value.started.At(e.op.role) < w.clock;
      }
    }
  }

  lemma MovesKeepLedger(t: Terms, v: View, w: World, w': World)
    requires Moves(t, w, w') && t.soleWriter && LedgerInv(t.config, v, w, t.origin)
    ensures LedgerInv(t.config, v, w', t.origin)
  {
    var n, plan := v.steps.applied, t.config.plan;
    if w.applying == Some(n) && w'.applying == None {
      assert plan.LedgerAfter(n + 1) == plan.LedgerAfter(n) + {plan.pending[n].name};
    }
  }

  lemma MovesKeep(t: Terms, j: seq<Event>, w: World, w': World, trace: seq<Emission>)
    requires SiteInv(t, j, w, trace) && Moves(t, w, w')
    ensures SiteInv(t, j, w', trace)
  {
    MovesKeepStarts(t, ViewOf(j), trace, w, w');
    if t.soleWriter {
      MovesKeepLedger(t, ViewOf(j), w, w');
    }
  }

  // -- an event is written -----------------------------------------------------------------

  /** What the world shows when an event is written: receipts are only written for what was observed. */
  ghost predicate Fits(t: Terms, v: View, w: World, e: Event) {
    match e
    case HostInit(f, s, r) =>
      f == w.fingerprint
      && forall q: Role :: s.At(q) == w.services.At(q).started && r.At(q) == w.services.At(q).restarts
    case HostIntent(ResumeRole(r)) => CleanlyStopped(w.services.At(r))
    case HostDone(Ingress, _) => w.Blocked()
    case HostDone(RestartNo(r), _) => !w.services.At(r).always
    case HostDone(Term(r), _) => !w.services.At(r).running
    case HostDone(ResumeRole(r), f) =>
      w.services.At(r).running && w.services.At(r).always && w.services.At(r).started == f
    case HostDone(OpenIngress, _) => w.OpenBoth()
    case HostSettled(q) => q == w.queue
    case Intent(Apply(i)) =>
      t.soleWriter ==> i <= |t.config.plan.pending| && w.db.ledger == t.config.plan.LedgerAfter(i)
    case Done(Apply(i)) =>
      t.soleWriter ==> i < |t.config.plan.pending| && w.db.ledger == t.config.plan.LedgerAfter(i + 1)
                       && w.applying == None
    case StepFailed(i, _, definite) =>
      t.soleWriter && definite ==> i <= |t.config.plan.pending| && w.db.ledger == t.config.plan.LedgerAfter(i)
                                   && w.applying == None
    case Migrated(g) => g == w.db.catalog
    case CandidateCreated(crew) =>
      forall r: Role :: r in w.project && w.project[r].id == crew.At(r).id && Held(w.project[r], crew.At(r))
    case BackendStarted(f) =>
      Backend in w.project && Running(w.project[Backend]) && w.project[Backend].started == f
    case _ => true
  }

  /** An event was written at the end of this course. */
  ghost predicate Witness(t: Terms, v: View, course: Course, e: Event) {
    course != [] && var w := course[|course| - 1]; Fits(t, v, w, e) && Shown(t.config, v, w, course, e)
  }

  /** `written` holds the course each event was written at the end of. */
  ghost predicate Witnessed(t: Terms, j: seq<Event>, written: seq<Course>) {
    |written| == |j| && forall k :: 0 <= k < |j| ==> Witness(t, ViewOf(j[..k]), written[k], j[k])
  }

  lemma WitnessedAppend(t: Terms, j: seq<Event>, written: seq<Course>, course: Course, e: Event)
    requires Witnessed(t, j, written) && Witness(t, ViewOf(j), course, e)
    ensures Witnessed(t, j + [e], written + [course])
  {
    hide Witness, ViewOf;
    forall k | 0 <= k <= |j|
      ensures Witness(t, ViewOf((j + [e])[..k]), (written + [course])[k], (j + [e])[k])
    {
      assert (j + [e])[..k] == j[..k];
    }
  }

  /** The migration was handed to the executor before. */
  ghost predicate Ran(m: Emission, i: nat, past: seq<Event>) {
    m.op == ApplyMigration(i) && m.past <= past
  }

  /** The outcome of a migration rests on the exit of the executor it was handed to: a receipt on exit zero, a
      recorded failure on what explains it. */
  ghost predicate Backs(c: Config, trace: seq<Emission>, past: seq<Event>, course: Course, e: Event) {
    match e
    case Done(Apply(i)) => exists m <- trace :: Ran(m, i, past) && m.exit == Some(0)
    case StepFailed(i, f, definite) =>
      course != []
      && exists m <- trace :: Ran(m, i, past) && Explains(c, i, m.exit, course[|course| - 1].db, f, definite)
    case _ => true
  }

  ghost predicate Backed(c: Config, j: seq<Event>, written: seq<Course>, trace: seq<Emission>) {
    |written| == |j| && forall k :: 0 <= k < |j| ==> Backs(c, trace, j[..k], written[k], j[k])
  }

  lemma BackedAppend(c: Config, j: seq<Event>, written: seq<Course>, trace: seq<Emission>, course: Course, e: Event)
    requires Backed(c, j, written, trace) && Backs(c, trace, j, course, e)
    ensures Backed(c, j + [e], written + [course], trace)
  {
    hide Backs;
    forall k | 0 <= k <= |j|
      ensures Backs(c, trace, (j + [e])[..k], (written + [course])[k], (j + [e])[k])
    {
      assert (j + [e])[..k] == j[..k];
    }
  }

  lemma BackedEmit(c: Config, j: seq<Event>, written: seq<Course>, trace: seq<Emission>, m: Emission)
    requires Backed(c, j, written, trace)
    ensures Backed(c, j, written, trace + [m])
  {
    hide Explains, Ran;
    forall k | 0 <= k < |j|
      ensures Backs(c, trace + [m], j[..k], written[k], j[k])
    {
      assert Backs(c, trace, j[..k], written[k], j[k]);
    }
  }

  lemma RecordedStays(v: View, n: nat, e: Event, op: Op)
    requires Recorded(v, op)
    ensures Recorded(Record(v, n, e), op)
  {
  }

  lemma TraceInvAppend(c: Config, j: seq<Event>, e: Event, trace: seq<Emission>)
    requires TraceInv(c, j, trace)
    ensures TraceInv(c, j + [e], trace)
  {
    hide Lawful, Record, Recorded, ViewOf, Exclusive;
    ViewAppend(j, e);
    forall m <- trace
      ensures Recorded(ViewOf(j + [e]), m.op)
    {
      RecordedStays(ViewOf(j), |j| + 1, e, m.op);
    }
  }

  lemma StartsAppend(t: Terms, j: seq<Event>, w: World, trace: seq<Emission>, e: Event)
    requires TraceInv(t.config, j, trace) && HostFacts(ViewOf(j)) && StampsInv(ViewOf(j), w)
    requires Justified(t.config, ViewOf(j), e) && Fits(t, ViewOf(j), w, e)
    ensures StampsInv(Record(ViewOf(j), |j| + 1, e), w)
    ensures StartsInv(ViewOf(j), trace, w) ==> StartsInv(Record(ViewOf(j), |j| + 1, e), trace, w)
  {
    hide ViewOf, Lawful, Exclusive, RecordWindow, RecordStep;
  }

  lemma LedgerAppend(t: Terms, v: View, n: nat, w: World, e: Event)
    requires StepFacts(t.config, v) && LedgerInv(t.config, v, w, t.origin) && t.config.plan.Valid()
    requires Justified(t.config, v, e) && Fits(t, v, w, e) && t.soleWriter
    ensures LedgerInv(t.config, Record(v, n, e), w, t.origin)
  {
    AppliedIsPrefix(t.config, v);
  }

  lemma HostFollowsAppend(t: Terms, v: View, n: nat, o: World, w: World, e: Event)
    requires HostFacts(v) && HostFollows(v, o, w) && StampsInv(v, w) && o.Clocked()
    requires Justified(t.config, v, e) && Fits(t, v, w, e)
    ensures HostFollows(Record(v, n, e), o, w)
  {
    hide IntentAllowed, DoneAllowed, ValidReceipt, RecordWindow, RecordStep;
    var v' := Record(v, n, e);
    forall r: Role
      ensures RoleFollows(v', o.services.At(r), w.services.At(r), r)
    {
      assert RoleFollows(v, o.services.At(r), w.services.At(r), r);
    }
  }

  lemma RestFollowsAppend(t: Terms, v: View, n: nat, w: World, e: Event)
    requires StepFacts(t.config, v) && DatabaseFollows(t.config, v, t.origin, w) && CandidateFollows(v, w)
    requires Justified(t.config, v, e) && Fits(t, v, w, e)
    ensures DatabaseFollows(t.config, Record(v, n, e), t.origin, w) && CandidateFollows(Record(v, n, e), w)
  {
  }

  lemma AppendKeeps(t: Terms, j: seq<Event>, w: World, trace: seq<Emission>, e: Event)
    requires SiteInv(t, j, w, trace)
    requires Justified(t.config, ViewOf(j), e) && Fits(t, ViewOf(j), w, e)
    ensures SiteInv(t, j + [e], w, trace)
  {
    var v := ViewOf(j);
    FactsHold(t.config, j);
    ViewAppend(j, e);
    WellFormedAppend(t.config, j, e);
    TraceInvAppend(t.config, j, e, trace);
    StartsAppend(t, j, w, trace, e);
    if t.soleWriter {
      LedgerAppend(t, v, |j| + 1, w, e);
    }
    if t.faithful {
      HostFollowsAppend(t, v, |j| + 1, t.origin, w, e);
      RestFollowsAppend(t, v, |j| + 1, w, e);
    }
  }

  // -- an effect is sent --------------------------------------------------------------------

  lemma TraceInvEmit(c: Config, j: seq<Event>, trace: seq<Emission>, m: Emission)
    requires TraceInv(c, j, trace)
    requires m.past == j && Lawful(c, m) && Recorded(ViewOf(j), m.op)
    requires forall e <- trace :: !Exclusive(e.op, m.op)
    ensures TraceInv(c, j, trace + [m])
  {
    hide Lawful, Recorded, ViewOf, Exclusive;
  }

  /** The effect met a world the environment had moved to, and left it somewhere on its way. */
  ghost predicate Sent(t: Terms, w: World, m: Emission, w': World) {
    && Moves(t, w, m.met) && Reached(t.config, m.op, m.met, w')
    && (t.adjacent || t.faithful ==> m.met == w)
    && (m.took <==> m.op.StartService? && !m.met.services.At(m.op.role).running && w' != m.met)
  }

  lemma ReachedKeepsStamps(c: Config, op: Op, v: View, w: World, w': World)
    requires StampsInv(v, w) && Reached(c, op, w, w')
    ensures StampsInv(v, w')
    ensures forall r: Role | op != StartService(r) :: w'.services.At(r).started == w.services.At(r).started
  {
    forall r: Role
      ensures w'.services.At(r).started < w'.clock
      ensures op != StartService(r) ==> w'.services.At(r).started == w.services.At(r).started
    {
      assert w.services.At(r).started < w.clock;
    }
    if v.host.init.Some? {
      forall r: Role
        ensures v.host.init.value.started.At(r) < w'.clock
      {
        assert v.host.init.value.started.At(r) < w.clock;
      }
    }
  }

  /** A guarded start only takes effect on a container that still carries its contained stamp, so no
      earlier start of that role took effect; afterwards the stamp is a fresh one. */
  lemma SentKeepsStarts(t: Terms, v: View, trace: seq<Emission>, w: World, m: Emission, w': World)
    requires Sent(t, w, m, w') && StampsInv(v, w)
    requires m.op.StartService? ==> v.host.init.Some? && StoppedAsContained(v, m.view, m.op.role)
                                    && (t.adjacent ==> m.view == w)
    ensures StampsInv(v, w')
    ensures t.adjacent && StartsInv(v, trace, w) ==> StartsInv(v, trace + [m], w')
  {
    MovesKeepStarts(t, v, trace, w, m.met);
    ReachedKeepsStamps(t.config, m.op, v, m.met, w');
    if t.adjacent && StartsInv(v, trace, w) {
      var all := trace + [m];
      forall e <- all | e.took && e.op.StartService? && v.host.init.Some?
        ensures w'.services.At(e.op.role).started != v.host.init.value.started.At(e.op.role)
      {
        assert v.host.init.value.started.At(e.op.role) < w.clock;
      }
    }
  }

  /** Host effects leave the database alone, and only the candidate's own effects touch its project. */
  lemma ReachedElsewhere(c: Config, op: Op, w: World, w': World)
    requires Reached(c, op, w, w')
    ensures !op.ApplyMigration? ==> w'.db == w.db && w'.applying == w.applying
    ensures !op.CreateCrew? && !op.StartCandidate? ==> w'.project == w.project
    ensures w'.foreign == w.foreign && w'.fingerprint == w.fingerprint && w'.writers == w.writers && w'.queue == w.queue
    ensures w.clock <= w'.clock
    ensures op.BlockEntries? ==> (w.external ==> w'.external) && (w.internal ==> w'.internal)
    ensures op.OpenEntries? ==> (!w.external ==> !w'.external) && (!w.internal ==> !w'.internal)
    ensures !op.BlockEntries? && !op.OpenEntries? ==> w'.external == w.external && w'.internal == w.internal
  {
  }

  lemma SentKeepsLedger(t: Terms, v: View, w: World, m: Emission, w': World)
    requires Sent(t, w, m, w') && !m.op.ApplyMigration?
    requires t.soleWriter && LedgerInv(t.config, v, w, t.origin)
    ensures LedgerInv(t.config, v, w', t.origin)
  {
    hide Reached;
    MovesKeepLedger(t, v, w, m.met);
    ReachedElsewhere(t.config, m.op, m.met, w');
  }

  /** The part of what made a host effect lawful that its place in the containment or resume rests on. */
  ghost predicate HostGrounds(v: View, w: World, op: Op) {
    match op
    case BlockEntries => !Resuming(v) && Ingress in v.host.intents && Ingress !in v.host.done
    case DisableRestart(r) => !Resuming(v) && RestartNo(r) in v.host.intents
    case SignalTerm(r) => !Resuming(v) && Term(r) in v.host.intents && Term(r) !in v.host.done
    case StartService(r) => Resuming(v) && ResumeRole(r) in v.host.intents && ResumeRole(r) !in v.host.done
    case EnableRestart(r) => Resuming(v) && ResumeRole(r) in v.host.intents && w.services.At(r).running
    case OpenEntries => Resuming(v) && OpenIngress in v.host.intents && OpenIngress !in v.host.done
    case _ => true
  }

  /** What an effect does to one service: nothing, unless it names the service and takes place. */
  ghost predicate ServiceReached(op: Op, r: Role, clock: nat, s: Service, s': Service) {
    || s' == s
    || (op == DisableRestart(r) && s' == s.(always := false))
    || (op == SignalTerm(r) && s.running && s' == s.(running := false, exit := 0))
    || (op == StartService(r) && !s.running && s' == s.(running := true, started := clock, restarts := 0))
    || (op == EnableRestart(r) && s' == s.(always := true))
  }

  lemma ReachedService(c: Config, op: Op, w: World, w': World, r: Role)
    requires Reached(c, op, w, w')
    ensures ServiceReached(op, r, w.clock, w.services.At(r), w'.services.At(r))
    ensures w.clock <= w'.clock
  {
  }

  lemma ReachedKeepsRole(v: View, op: Op, o: Service, s: Service, s': Service, clock: nat, r: Role)
    requires ServiceReached(op, r, clock, s, s') && RoleFollows(v, o, s, r) && o.started < clock
    requires ResumeRole(r) in v.host.intents ==> Resuming(v)
    requires ResumeRole(r) in v.host.done ==> ResumeRole(r) in v.host.intents
    requires op == DisableRestart(r) ==> !Resuming(v) && RestartNo(r) in v.host.intents
    requires op == SignalTerm(r) ==> !Resuming(v) && Term(r) in v.host.intents && Term(r) !in v.host.done
    requires op == StartService(r) ==> ResumeRole(r) in v.host.intents && ResumeRole(r) !in v.host.done
    requires op == EnableRestart(r) ==> ResumeRole(r) in v.host.intents && s.running
    ensures RoleFollows(v, o, s', r)
  {
  }

  lemma ReachedKeepsRoles(c: Config, v: View, o: World, op: Op, w: World, w': World)
    requires Reached(c, op, w, w') && HostFollows(v, o, w) && o.Clocked()
    requires HostFacts(v) && HostGrounds(v, w, op)
    ensures forall r: Role :: RoleFollows(v, o.services.At(r), w'.services.At(r), r)
  {
    ResumeRests(v);
    assert forall r: Role :: ResumeRole(r) in v.host.done ==> ResumeRole(r) in v.host.intents;
    assert forall r: Role :: RoleFollows(v, o.services.At(r), w.services.At(r), r);
    hide RoleFollows, HostFacts, Reached, HostFollows;
    forall r: Role
      ensures RoleFollows(v, o.services.At(r), w'.services.At(r), r)
    {
      assert o.services.At(r).started < w.clock;
      ReachedService(c, op, w, w', r);
      ReachedKeepsRole(v, op, o.services.At(r), w.services.At(r), w'.services.At(r), w.clock, r);
    }
  }

  lemma SentKeepsHost(t: Terms, v: View, w: World, m: Emission, w': World)
    requires Sent(t, w, m, w') && t.faithful && t.origin.Clocked()
    requires HostFacts(v) && HostGrounds(v, w, m.op) && HostFollows(v, t.origin, w)
    ensures HostFollows(v, t.origin, w')
  {
    ResumeRests(v);
    ReachedKeepsRoles(t.config, v, t.origin, m.op, w, w');
    ReachedElsewhere(t.config, m.op, w, w');
    hide RoleFollows, HostFacts, Reached;
  }

  lemma SentKeepsDatabase(t: Terms, v: View, w: World, m: Emission, w': World)
    requires Sent(t, w, m, w') && t.faithful && !m.op.ApplyMigration?
    requires DatabaseFollows(t.config, v, t.origin, w)
    ensures DatabaseFollows(t.config, v, t.origin, w')
  {
    assert w'.db == w.db && w'.applying == w.applying;
  }

  /** The candidate's own effects only touch what is not yet receipted. */
  lemma CandidateEffect(c: Config, v: View, op: Op, w: World, w': World)
    requires Reached(c, op, w, w') && CandidateFollows(v, w) && (op.CreateCrew? || op.StartCandidate?)
    requires op.CreateCrew? ==> CreateHeld in v.steps.intents && v.steps.crew.None? && v.steps.backendStart.None?
    requires op.StartCandidate? ==> StartBackend in v.steps.intents && v.steps.backendStart.None?
    ensures CandidateFollows(v, w')
  {
    if op.StartCandidate? && v.steps.crew.Some? {
      assert Backend in w.project;
    }
    hide Held, Running;
  }

  lemma SentKeepsCandidate(t: Terms, v: View, w: World, m: Emission, w': World)
    requires Sent(t, w, m, w') && t.faithful && CandidateFollows(v, w)
    requires m.op.CreateCrew? ==> CreateHeld in v.steps.intents && v.steps.crew.None? && v.steps.backendStart.None?
    requires m.op.StartCandidate? ==> StartBackend in v.steps.intents && v.steps.backendStart.None?
    ensures CandidateFollows(v, w')
  {
    hide Reached;
    if m.op.CreateCrew? || m.op.StartCandidate? {
      CandidateEffect(t.config, v, m.op, w, w');
    } else {
      ReachedElsewhere(t.config, m.op, w, w');
    }
  }

  lemma EffectKeeps(t: Terms, j: seq<Event>, w: World, trace: seq<Emission>, m: Emission, w': World)
    requires SiteInv(t, j, w, trace) && Sent(t, w, m, w') && !m.op.ApplyMigration?
    requires m.past == j && (t.adjacent ==> m.view == w) && Lawful(t.config, m) && Recorded(ViewOf(j), m.op)
    requires forall e <- trace :: !Exclusive(e.op, m.op)
    ensures SiteInv(t, j, w', trace + [m])
  {
    var v := ViewOf(j);
    FactsHold(t.config, j);
    TraceInvEmit(t.config, j, trace, m);
    SentKeepsStarts(t, v, trace, w, m, w');
    if t.soleWriter {
      SentKeepsLedger(t, v, w, m, w');
    }
    if t.faithful {
      assert HostGrounds(v, w, m.op);
      SentKeepsHost(t, v, w, m, w');
      SentKeepsDatabase(t, v, w, m, w');
      SentKeepsCandidate(t, v, w, m, w');
    }
  }

  lemma ApplyKeepsLedger(t: Terms, v: View, w: World, m: Emission, w': World)
    requires t.soleWriter && LedgerInv(t.config, v, w, t.origin)
    requires Sent(t, w, m, w') && m.op == ApplyMigration(v.steps.applied) && Apply(v.steps.applied) in v.steps.intents
    requires v.steps.applied < |t.config.plan.pending| && v.steps.applied !in v.steps.failures
    requires w.db.ledger == t.config.plan.LedgerAfter(v.steps.applied) && w.applying == None
    ensures LedgerInv(t.config, v, w', t.origin)
    ensures w'.applying == None || w'.applying == Some(v.steps.applied)
  {
    var n, plan := v.steps.applied, t.config.plan;
    assert plan.LedgerAfter(n + 1) == plan.LedgerAfter(n) + {plan.pending[n].name};
  }

  lemma HealthyIsClocked(c: Config, o: World)
    requires Healthy(c, o)
    ensures o.Clocked()
  {
  }

  lemma ApplyKeepsDatabase(t: Terms, v: View, w: World, m: Emission, w': World)
    requires Sent(t, w, m, w') && t.faithful && m.op.ApplyMigration?
    requires Apply(m.op.index) in v.steps.intents && v.steps.migrated.None?
    requires DatabaseFollows(t.config, v, t.origin, w)
    ensures DatabaseFollows(t.config, v, t.origin, w')
  {
  }

  lemma ApplyKeeps(t: Terms, j: seq<Event>, w: World, trace: seq<Emission>, m: Emission, w': World)
    requires SiteInv(t, j, w, trace) && Sent(t, w, m, w') && m.op.ApplyMigration?
    requires m.past == j && Lawful(t.config, m) && Recorded(ViewOf(j), m.op)
    requires m.op.index !in ViewOf(j).steps.failures
    requires t.soleWriter ==> w.db.ledger == m.proof.value.ledger && w.applying == None
    requires forall e <- trace :: !Exclusive(e.op, m.op)
    ensures SiteInv(t, j, w', trace + [m])
  {
    hide ViewOf, TraceInv, StampsInv, StartsInv, HostFollows, CandidateFollows, DatabaseFollows, LedgerInv, HostFacts,
      Healthy, Sent;
    var v := ViewOf(j);
    FactsHold(t.config, j);
    AppliedIsPrefix(t.config, v);
    TraceInvEmit(t.config, j, trace, m);
    SentKeepsStarts(t, v, trace, w, m, w');
    if t.soleWriter {
      ApplyKeepsLedger(t, v, w, m, w');
    }
    if t.faithful {
      HealthyIsClocked(t.config, t.origin);
      SentKeepsHost(t, v, w, m, w');
      SentKeepsCandidate(t, v, w, m, w');
      ApplyKeepsDatabase(t, v, w, m, w');
    }
  }
}
