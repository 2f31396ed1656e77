/** One initial transition as its controller reaches it: the durable journal and the ports to the host. */
module InitialTransitionPorts {
  import opened Outcomes
  import opened Roles
  import opened ReconciliationDelta
  import opened InitialTransitionJournal
  import opened InitialTransitionWorld
  import opened InitialTransitionSite

  /** What later events never take back. */
  ghost predicate Later(v: View, v': View) {
    && v.stages <= v'.stages && v'.legacy.resuming == v.legacy.resuming
    && (v.legacy.observed.Some? ==> v'.legacy.observed == v.legacy.observed)
    && v.legacy.intents <= v'.legacy.intents && v.legacy.done.Keys <= v'.legacy.done.Keys
    && (v.ddl.marker ==> v'.ddl.marker) && v.ddl.done <= v'.ddl.done
    && (v.candidate.created ==> v'.candidate.created) && (v.candidate.promoted ==> v'.candidate.promoted)
    && (v.data.base.Some? ==> v'.data.base == v.data.base) && (v.data.preview ==> v'.data.preview)
    && (v.data.verified ==> v'.data.verified)
  }

  lemma LaterStep(c: Case, total: nat, v: View, e: Event)
    requires Justified(c, total, v, e) && !e.ResumeIntent?
    ensures Later(v, Record(v, e))
  {
  }

  /** The last effect sent was this one. */
  ghost predicate JustSent(trace: seq<Emission>, op: Op) {
    trace != [] && trace[|trace| - 1].op == op
  }

  /** These effects were sent, in this order. */
  ghost predicate Sends(trace: seq<Emission>, trace': seq<Emission>, ops: seq<Op>) {
    && |trace'| == |trace| + |ops| && trace'[..|trace|] == trace
    && forall k :: 0 <= k < |ops| ==> trace'[|trace| + k].op == ops[k]
  }

  /** A refusal was journaled with its code, unless a port, the journal or the endpoint itself failed. */
  ghost predicate Told(o: Outcome<Code>, j: seq<Event>) {
    o.Refused? ==>
      || o.code in {PortFailed, JournalWrite, Code.Scope}
      || (j != [] && var e := j[|j| - 1];
          e == Refusal(o.code) || e == Waiting(o.code) || (e.MigrationRefused? && e.code == o.code))
  }

  /** Not refused for a wait, nor for a missing decision. */
  ghost predicate Unwaiting(o: Outcome<Code>) {
    o.Refused? ==> Plain(o.code)
  }

  /** What a process may journal only when it was called for it. */
  ghost predicate Carries(decision: Option<Decision>, confirmed: bool, e: Event) {
    match e
    case Decided(d) => decision == Some(d)
    case ResumeIntent => confirmed
    case Refusal(CandidateDecisionRequired) => decision != Some(RetryCandidate)
    case _ => true
  }

  ghost predicate Carried(found: seq<Event>, j: seq<Event>, decision: Option<Decision>, confirmed: bool) {
    found <= j && forall k :: |found| <= k < |j| ==> Carries(decision, confirmed, j[k])
  }

  predicate OnCandidate(op: Op) {
    op.CreateCandidate? || op.StartCandidate? || op.CandidatePolicy? || op.CandidateSignal?
  }

  /** How many containments of the candidate were intended. */
  ghost function Containments(j: seq<Event>): nat {
    if j == [] then 0 else Containments(j[..|j| - 1]) + if j[|j| - 1].ContainIntended? then 1 else 0
  }

  /** How many effects on the candidate were sent. */
  ghost function SentToCandidate(trace: seq<Emission>): nat {
    if trace == [] then 0
    else SentToCandidate(trace[..|trace| - 1]) + if OnCandidate(trace[|trace| - 1].op) then 1 else 0
  }

  lemma CarriedOn(found: seq<Event>, j: seq<Event>, decision: Option<Decision>, confirmed: bool, e: Event)
    requires Carried(found, j, decision, confirmed) && Carries(decision, confirmed, e)
    ensures Carried(found, j + [e], decision, confirmed)
  {
    hide Carries;
  }

  lemma ContainmentsOn(j: seq<Event>, e: Event)
    ensures Containments(j + [e]) == Containments(j) + if e.ContainIntended? then 1 else 0
  {
    assert (j + [e])[..|j|] == j;
  }

  lemma SentOn(trace: seq<Emission>, m: Emission)
    ensures SentToCandidate(trace + [m]) == SentToCandidate(trace) + if OnCandidate(m.op) then 1 else 0
  {
    assert (trace + [m])[..|trace|] == trace;
  }

  class Host {
    const terms: Terms
    /** The journal the process found, and what it was called with. */
    ghost const found: seq<Event>
    ghost const decision: Option<Decision>
    ghost const confirmed: bool
    var journal: seq<Event>
    var world: World
    /** What the process went through since the last event it wrote, and what it had when it wrote each. */
    ghost var course: Course
    ghost var written: seq<Course>
    ghost var trace: seq<Emission>
    /** How many containments the journal holds, and how many effects on the candidate were sent. */
    ghost var containments: nat
    ghost var toCandidate: nat
    /** How many effects had been sent before this process; it sends none before it checked its endpoint. */
    ghost const sent: nat
    ghost var checked: bool

    constructor (terms: Terms, ghost decision: Option<Decision>, ghost confirmed: bool, journal: seq<Event>,
                 world: World, ghost written: seq<Course>, ghost trace: seq<Emission>)
      ensures this.terms == terms && this.decision == decision && this.confirmed == confirmed
      ensures this.found == this.journal == journal && this.world == world
      ensures this.written == written && this.trace == trace && this.course == [world]
      ensures !this.checked && this.sent == |trace|
      ensures SiteInv(terms, journal, written, world, trace) ==> Inv()
    {
      this.terms, this.decision, this.confirmed, this.found := terms, decision, confirmed, journal;
      this.journal, this.world, this.written, this.trace := journal, world, written, trace;
      this.course := [world];
      this.containments, this.toCandidate := Containments(journal), SentToCandidate(trace);
      this.sent, this.checked := |trace|, false;
    }

    function View(): View
      reads this`journal
    {
      ViewOf(journal)
    }

    ghost predicate Inv()
      reads this
    {
      && SiteInv(terms, journal, written, world, trace) && Standing(course, world)
      && Carried(found, journal, decision, confirmed)
      && containments == Containments(journal) && toCandidate == SentToCandidate(trace)
      && (checked || |trace| == sent)
    }

    /** One durable append. It may be refused with nothing written; a process killed during it left the record
        there or not. */
    method Write(e: Event) returns (o: Outcome<Code>)
      requires Inv() && Justified(terms.TheCase(), |terms.pending|, View(), e) && Fits(terms, View(), world, e)
      requires Shown(terms, View(), world, course, e)
      requires Carries(decision, confirmed, e) && !e.ContainIntended?
      modifies `course, `journal, `written
      ensures Inv()
      ensures o.Refused? ==> o.code == JournalWrite && journal == old(journal)
      ensures View() == Record(old(View()), e) || (!o.Pass? && View() == old(View()))
      ensures !e.ResumeIntent? ==> Later(old(View()), View())
      ensures o.Pass? ==> journal == old(journal) + [e] && (e.ReconcileDone? ==> course == old(course))
      ensures o.Pass? ==> written == old(written) + [old(course)]
    {
      hide SiteInv, Justified, Fits, Shown, ViewOf, Record, Later, Carried, Carries, Containments, SentToCandidate;
      ghost var v := View();
      if !e.ResumeIntent? {
        LaterStep(terms.TheCase(), |terms.pending|, v, e);
      }
      LaterSame(v);
      o := *;
      if o.Refused? { return Refused(JournalWrite); }
      var lost := *;
      if o.Pass? || !lost {
        ViewAppend(journal, e);
        AppendKeeps(terms, journal, written, course, world, trace, e);
        CarriedOn(found, journal, decision, confirmed, e);
        ContainmentsOn(journal, e);
        journal, written := journal + [e], written + [course];
        if !e.ReconcileDone? { course := [world]; }
        assert View() == Record(v, e);
      }
    }

    /** The containment of the candidate is intended; like every append, this one may be lost or refused. */
    method WriteContain() returns (o: Outcome<Code>)
      requires Inv() && Justified(terms.TheCase(), |terms.pending|, View(), ContainIntended)
      modifies `course, `journal, `written, `containments
      ensures Inv() && Quietly(old(View()), View())
      ensures o.Refused? ==> o.code == JournalWrite && containments == old(containments)
      ensures containments == old(containments) || containments == old(containments) + 1
      ensures o.Pass? ==> containments == old(containments) + 1 && journal == old(journal) + [ContainIntended]
    {
      hide SiteInv, Justified, ViewOf, Carried, Containments, SentToCandidate;
      o := *;
      if o.Refused? { return Refused(JournalWrite); }
      var lost := *;
      if o.Pass? || !lost {
        ViewAppend(journal, ContainIntended);
        AppendKeeps(terms, journal, written, course, world, trace, ContainIntended);
        CarriedOn(found, journal, decision, confirmed, ContainIntended);
        ContainmentsOn(journal, ContainIntended);
        journal, written, course := journal + [ContainIntended], written + [course], [world];
        containments := containments + 1;
      }
    }

    method WriteIntent(s: LegacyStep) returns (o: Outcome<Code>)
      requires Inv() && LegacyIntentAllowed(View(), s)
      requires s.ResumeRole? ==> RevalidSeen(View(), course) && UntouchedSeen(View(), course)
      modifies `course, `journal, `written
      ensures o.Refused? ==> o.code == JournalWrite
      ensures o.Pass? ==> journal == old(journal) + [Intent(s)]
      ensures Inv() && OnlyLegacy(old(View()), View())
      ensures View().legacy == old(View()).legacy.(intents := View().legacy.intents)
      ensures View().legacy.intents == old(View()).legacy.intents + {s}
              || (!o.Pass? && View().legacy.intents == old(View()).legacy.intents)
    {
      hide SiteInv, ViewOf, LegacyIntentAllowed, Later;
      o := Write(Intent(s));
    }

    method WriteDone(s: LegacyStep, started: nat) returns (o: Outcome<Code>)
      requires Inv() && LegacyDoneAllowed(View(), s)
      requires s.PolicyNo? ==> Shows(world, LegacyPolicyIs(s.role, No)) && JustSent(trace, LegacyPolicy(s.role, No))
      requires s.Signal? ==> Seen(course, LegacyStopped(s.role)) || JustSent(trace, LegacySignal(s.role))
      requires s.Exit? || s.ResumeRole? ==> View().legacy.observed.Some?
      requires s.Exit? ==> Shows(world, ContainedExit(s.role, View().legacy.observed.value.At(s.role)))
      requires s.ResumeRole? ==> Shows(world, Resumed(s.role, View().legacy.observed.value.At(s.role)))
                                 && world.legacy.At(s.role).started == started
      modifies `course, `journal, `written
      ensures o.Refused? ==> o.code == JournalWrite
      ensures Inv() && OnlyLegacy(old(View()), View())
      ensures View().legacy == old(View()).legacy.(done := View().legacy.done)
      ensures View().legacy.done == old(View()).legacy.done[s := started]
              || (!o.Pass? && View().legacy.done == old(View()).legacy.done)
    {
      hide SiteInv, ViewOf, LegacyDoneAllowed, Later;
      o := Write(Done(s, started));
    }

    /** A human decision is consumed by journaling it. */
    method WriteResignal(r: Role) returns (o: Outcome<Code>)
      requires Inv() && DecisionAllowed(View(), Resignal(r)) && Seen(course, LegacyRuns(r))
      requires decision == Some(Resignal(r))
      modifies `course, `journal, `written
      ensures o.Refused? ==> o.code == JournalWrite
      ensures o.Pass? ==> journal == old(journal) + [Decided(Resignal(r))]
      ensures Inv() && OnlyLegacy(old(View()), View())
      ensures View().legacy == old(View()).legacy.(resignals := View().legacy.resignals)
      ensures o.Pass? ==> Count(View().legacy.resignals, r) == Count(old(View()).legacy.resignals, r) + 1
    {
      hide SiteInv, ViewOf, DecisionAllowed, Later;
      o := Write(Decided(Resignal(r)));
    }

    /** A refusal is journaled, then raised. */
    method Refuse(code: Code) returns (o: Outcome<Code>)
      requires Inv()
      requires Plain(code) || (code.CandidateDecisionRequired? && View().candidate.restarted
                               && !View().candidate.retried && decision != Some(RetryCandidate))
      modifies `course, `journal, `written
      ensures Inv() && !o.Pass? && Quietly(old(View()), View())
      ensures Told(o, journal) && (o.Refused? ==> o.code == code || o.code == JournalWrite)
    {
      hide SiteInv, ViewOf;
      o := Write(Refusal(code));
      if o.Pass? { o := Refused(code); }
    }

    /** So is a transient wait, which is never sticky. */
    method Wait(code: Code) returns (o: Outcome<Code>)
      requires Inv() && (code.JobActive? || code.SessionActive?)
      requires code.JobActive? ==> exists n <- world.jobs :: world.jobs[n].status.Running?
      requires code.SessionActive? ==> world.sessions != {} || world.builds || MigrationRunning(world)
      modifies `course, `journal, `written
      ensures Inv() && !o.Pass? && Quietly(old(View()), View())
      ensures Told(o, journal) && (o.Refused? ==> o.code == code || o.code == JournalWrite)
    {
      hide SiteInv, ViewOf;
      o := Write(Waiting(code));
      if o.Pass? { o := Refused(code); }
    }

    method Environment()
      requires Inv()
      modifies `course, `world
      ensures Inv() && Moves(terms, old(world), world)
      ensures course == old(course) + [world] && Extends(old(course), course)
    {
      hide SiteInv, Carried, Containments, SentToCandidate, Moves, Extends;
      ghost var before := course;
      var next: World := *;
      ghost var w := world;
      if Moves(terms, world, next) {
        MovesKeep(terms, journal, written, world, next, trace);
        world := next;
      } else {
        Standstill(terms, world);
      }
      course := course + [world];
      GoesOn(before, course);
    }

    method Observe() returns (o: Outcome<Code>, view: World)
      requires Inv()
      modifies `course, `world
      ensures Inv() && Moves(terms, old(world), world) && view == world
      ensures course == old(course) + [world] && Extends(old(course), course)
      ensures o.Refused? ==> o.code == PortFailed
    {
      hide SiteInv, Carried, Containments, SentToCandidate, Moves, Extends;
      Environment();
      o := *;
      if o.Refused? { o := Refused(PortFailed); }
      view := world;
    }

    /** The endpoint is local and its topology the owned one. */
    method CheckEndpoint() returns (o: Outcome<Code>)
      requires Inv()
      modifies `course, `world, `checked
      ensures Inv() && course == old(course) + [world] && Extends(old(course), course)
      ensures if o.Pass? then checked && world.owned else checked == old(checked)
      ensures o.Refused? ==> o.code == PortFailed || (o.code == Code.Scope && !world.owned)
    {
      hide SiteInv, Moves, Extends, Carried, Containments, SentToCandidate;
      var view: World;
      view :- Observe();
      :- Require(view.owned, Code.Scope);
      checked := true;
      return Pass;
    }

    /** An effect is sent: it may be lost, take place and be reported as failed, or take place and pass. */
    method Effect(op: Op) returns (o: Outcome<Code>)
      requires checked
      requires Inv() && Lawful(View(), world, op) && Intended(journal, op) && !op.JobCreate? && !op.JobStart?
      requires !OnCandidate(op)
      requires forall r: Role :: op == LegacySignal(r) ==> SignalsSent(trace, r) < SignalsAllowed(View(), r)
      modifies `course, `world, `trace
      ensures Inv() && |trace| == |old(trace)| + 1 && trace[..|old(trace)|] == old(trace)
      ensures trace[|old(trace)|].op == op
      ensures terms.kept ==> world.jobs.Keys == old(world).jobs.Keys
      ensures Extends(old(course), course) && (o.Refused? ==> o.code == PortFailed)
    {
      hide SiteInv, Carried, Containments, SentToCandidate, Lawful, Intended, ViewOf, Extends;
      ghost var view, before := world, course;
      Environment();
      var next: World := *;
      next := next.(jobs := world.jobs, db := world.db);
      OtherKeeps(terms, journal, written, world, trace, op, view, next);
      SentOn(trace, Emission(op, journal, view, false));
      trace := trace + [Emission(op, journal, view, false)];
      world, course := next, course + [next];
      GoesOn(before, course);
      o := *;
      if o.Refused? { o := Refused(PortFailed); }
    }

    /** So is one on the candidate. */
    method EffectOnCandidate(op: Op) returns (o: Outcome<Code>)
      requires checked
      requires Inv() && Lawful(View(), world, op) && Intended(journal, op) && OnCandidate(op)
      modifies `course, `world, `trace, `toCandidate
      ensures Inv() && |trace| == |old(trace)| + 1 && trace[..|old(trace)|] == old(trace)
      ensures trace[|old(trace)|].op == op
      ensures terms.kept ==> world.jobs.Keys == old(world).jobs.Keys
      ensures Extends(old(course), course) && (o.Refused? ==> o.code == PortFailed)
    {
      hide SiteInv, Carried, Containments, SentToCandidate, Lawful, Intended, ViewOf, Extends;
      ghost var view, before := world, course;
      Environment();
      var next: World := *;
      next := next.(jobs := world.jobs, db := world.db);
      OtherKeeps(terms, journal, written, world, trace, op, view, next);
      SentOn(trace, Emission(op, journal, view, false));
      trace := trace + [Emission(op, journal, view, false)];
      world, course, toCandidate := next, course + [next], toCandidate + 1;
      GoesOn(before, course);
      o := *;
      if o.Refused? { o := Refused(PortFailed); }
    }

    method SetLegacyPolicy(r: Role, p: Policy) returns (o: Outcome<Code>)
      requires checked
      requires Inv() && !View().ddl.marker
      requires p == No ==> !View().legacy.resuming && PolicyNo(r) in View().legacy.intents
      requires p != No ==> View().legacy.resuming && ResumeRole(r) in View().legacy.intents
      requires p != No ==> ResumeRole(r) !in View().legacy.done
      requires Intended(journal, LegacyPolicy(r, p))
      modifies `course, `world, `trace
      ensures o.Refused? ==> o.code == PortFailed
      ensures Inv() && Sends(old(trace), trace, [LegacyPolicy(r, p)]) && JustSent(trace, LegacyPolicy(r, p))
    {
      hide SiteInv, ViewOf;
      o := Effect(LegacyPolicy(r, p));
    }

    method SignalLegacy(r: Role) returns (o: Outcome<Code>)
      requires checked
      requires Inv() && !View().ddl.marker && !View().legacy.resuming
      requires PolicyNo(r) in View().legacy.done && Signal(r) in View().legacy.intents
      requires SignalsSent(trace, r) < SignalsAllowed(View(), r) && Intended(journal, LegacySignal(r))
      modifies `course, `world, `trace
      ensures o.Refused? ==> o.code == PortFailed
      ensures Inv() && JustSent(trace, LegacySignal(r))
    {
      hide SiteInv, ViewOf, SignalsSent, SignalsAllowed;
      o := Effect(LegacySignal(r));
    }

    method StartLegacy(r: Role) returns (o: Outcome<Code>)
      requires checked
      requires Inv() && !View().ddl.marker && View().legacy.resuming
      requires ResumeRole(r) in View().legacy.intents && ResumeRole(r) !in View().legacy.done
      requires !world.legacy.At(r).running && View().legacy.observed.Some? && Intended(journal, LegacyStart(r))
      requires world.legacy.At(r).policy == View().legacy.observed.value.At(r).policy
      modifies `course, `world, `trace
      ensures o.Refused? ==> o.code == PortFailed
      ensures Inv() && Sends(old(trace), trace, [LegacyStart(r)])
    {
      hide SiteInv, ViewOf;
      o := Effect(LegacyStart(r));
    }

    /** A container of this name is created, once; its id is returned. */
    method CreateJob(n: JobName) returns (o: Outcome<Code>, id: nat)
      requires checked
      requires Inv() && Lawful(View(), world, JobCreate(n)) && Intended(journal, JobCreate(n))
      modifies `course, `world, `trace
      ensures Inv()
      ensures o.Refused? ==> o.code == PortFailed
      ensures o.Pass? ==> n in world.jobs && world.jobs[n].id == id && world.jobs[n].matches
    {
      hide SiteInv, Carried, Containments, SentToCandidate, Lawful, Intended, ViewOf;
      ghost var view := world;
      Environment();
      id := *;
      o := *;
      if o.Refused? { o := Refused(PortFailed); }
      if n in world.jobs && o.Pass? { o := Refused(PortFailed); }
      var lost := *;
      var takes := n !in world.jobs && (o.Pass? || !lost);
      var next := if takes then world.(jobs := world.jobs[n := Container(id, true, Created, 0)]) else world;
      CreateKeeps(terms, journal, written, world, trace, n, id, takes, view, next);
      SentOn(trace, Emission(JobCreate(n), journal, view, takes));
      trace := trace + [Emission(JobCreate(n), journal, view, takes)];
      world, course := next, course + [next];
    }

    /** The recorded container is started when it is still in its created state; else the daemon refuses. */
    method StartJob(n: JobName) returns (o: Outcome<Code>)
      requires checked
      requires Inv() && Lawful(View(), world, JobStart(n))
      modifies `course, `world, `trace
      ensures Inv()
      ensures o.Refused? ==> o.code == PortFailed
      ensures terms.kept && n in old(world).jobs ==> n in world.jobs && world.jobs[n].id == old(world).jobs[n].id
      ensures terms.kept && o.Pass? ==> n in world.jobs && !world.jobs[n].status.Created?
      ensures |trace| == |old(trace)| + 1 && trace[..|old(trace)|] == old(trace)
      ensures trace[|old(trace)|].op == JobStart(n) && trace[|old(trace)|].view == old(world)
    {
      hide SiteInv, Carried, Containments, SentToCandidate, Lawful, Intended, ViewOf;
      ghost var view := world;
      Environment();
      o := *;
      if o.Refused? || n !in world.jobs { o := if o.Killed? then o else Refused(PortFailed); }
      var lost := *;
      var takes := n in world.jobs && world.jobs[n].status.Created? && (o.Pass? || !lost);
      var next := if takes then world.(jobs := world.jobs[n := world.jobs[n].(status := Running)]) else world;
      StartKeeps(terms, journal, written, world, trace, n, takes, view, next);
      SentOn(trace, Emission(JobStart(n), journal, view, takes));
      trace := trace + [Emission(JobStart(n), journal, view, takes)];
      world, course := next, course + [next];
    }
  }

  lemma Standstill(t: Terms, w: World)
    ensures Moves(t, w, w)
  {
  }

  lemma OtherKeeps(t: Terms, j: seq<Event>, written: seq<Course>, w: World, trace: seq<Emission>, op: Op,
                   view: World, next: World)
    requires SiteInv(t, j, written, w, trace) && Lawful(ViewOf(j), view, op) && Intended(j, op)
    requires !op.JobCreate? && !op.JobStart?
    requires forall r: Role :: op == LegacySignal(r) ==> SignalsSent(trace, r) < SignalsAllowed(ViewOf(j), r)
    requires next.jobs == w.jobs && next.db == w.db
    ensures SiteInv(t, j, written, next, trace + [Emission(op, j, view, false)])
  {
    hide SiteInv, Lawful, Intended, ViewOf;
    EffectKeeps(t, j, written, w, trace, Emission(op, j, view, false), w, next);
  }

  lemma CreateKeeps(t: Terms, j: seq<Event>, written: seq<Course>, w: World, trace: seq<Emission>, n: JobName, id: nat,
                    takes: bool, view: World, next: World)
    requires SiteInv(t, j, written, w, trace) && Lawful(ViewOf(j), view, JobCreate(n)) && (takes ==> n !in w.jobs)
    requires Intended(j, JobCreate(n))
    requires next == if takes then w.(jobs := w.jobs[n := Container(id, true, Created, 0)]) else w
    ensures SiteInv(t, j, written, next, trace + [Emission(JobCreate(n), j, view, takes)])
  {
    hide SiteInv, Lawful, Intended, ViewOf;
    EffectKeeps(t, j, written, w, trace, Emission(JobCreate(n), j, view, takes), w, next);
  }

  lemma StartKeeps(t: Terms, j: seq<Event>, written: seq<Course>, w: World, trace: seq<Emission>, n: JobName,
      takes: bool, view: World, next: World)
    requires SiteInv(t, j, written, w, trace) && Lawful(ViewOf(j), view, JobStart(n))
    requires takes ==> n in w.jobs && w.jobs[n].status.Created?
    requires next == if takes then w.(jobs := w.jobs[n := w.jobs[n].(status := Running)]) else w
    ensures SiteInv(t, j, written, next, trace + [Emission(JobStart(n), j, view, takes)])
  {
    hide SiteInv, Lawful, ViewOf;
    EffectKeeps(t, j, written, w, trace, Emission(JobStart(n), j, view, takes), w, next);
  }

  /** Nothing that is looked up was changed, but that the marker is no longer the last event. */
  ghost predicate Quietly(v: View, v': View) {
    v' == v.(ddl := v.ddl.(justMarked := v'.ddl.justMarked))
  }

  /** Only what is known of the legacy was changed. */
  ghost predicate OnlyLegacy(v: View, v': View) {
    v' == v.(legacy := v'.legacy, ddl := v.ddl.(justMarked := v'.ddl.justMarked))
  }

  lemma LaterSame(v: View)
    ensures Later(v, v)
  {
  }

  lemma LaterTwice(v: View, v1: View, v2: View)
    requires Later(v, v1) && Later(v1, v2)
    ensures Later(v, v2)
  {
  }
}
