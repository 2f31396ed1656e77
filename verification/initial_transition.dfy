/** The controller of the initial transition. Every effect is preceded by a durable intent; a replay looks at the
    real state, and refuses when an outcome cannot be told. */
module InitialTransition {
  import opened Outcomes
  import opened Roles
  import opened ReconciliationDelta
  import opened InitialTransitionJournal
  import opened InitialTransitionWorld
  import opened InitialTransitionSite
  import opened InitialTransitionPorts

  // -- judgements on one observation ---------------------------------------------------------

  /** What refuses a containment itself. */
  ghost predicate ContainmentRefused(o: Outcome<Code>) {
    o.Refused? ==>
      o.code == ContainmentFailed || o.code == ContainmentTimeout || o.code == PortFailed || o.code == JournalWrite
  }

  /** From this read on the role was read as stopped. */
  ghost predicate StoppedSince(course: Course, n: nat, r: Role) {
    exists k :: n <= k < |course| && !course[k].candidate.At(r).running
  }

  /** Every role was read with its restart off, and after that as stopped. */
  ghost predicate Halted(course: Course) {
    forall r: Role :: RoleHalted(course, r)
  }

  ghost predicate RoleHalted(course: Course, r: Role) {
    exists i :: 0 <= i < |course| && course[i].candidate.At(r).policy == No && StoppedSince(course, i + 1, r)
  }

  /** The journal ends in a containment right after a refusal with this code; all four were read with their restart
      off and then as stopped, and a fresh epoch is open. */
  ghost predicate WasContained(code: Code, j: seq<Event>, written: seq<Course>, v: CandidateView) {
    && |j| == |written| && |j| >= 2 && j[|j| - 2].ContainIntended? && j[|j| - 1].CandidateContained?
    && Told(Refused(code), j[..|j| - 2]) && Halted(written[|j| - 1])
    && v == CandidateView(true, true, false, {}, map[], {}, false, false)
  }

  lemma ContainedIs(j1: seq<Event>, code: Code, j: seq<Event>, written: seq<Course>, v: CandidateView)
    requires j == j1 + [ContainIntended, CandidateContained] && Told(Refused(code), j1)
    requires |written| == |j| && Halted(written[|j| - 1])
    requires v == CandidateView(true, true, false, {}, map[], {}, false, false)
    ensures WasContained(code, j, written, v)
  {
    assert j[..|j| - 2] == j1;
  }

  lemma StoppedStays(course: Course, course': Course, n: nat)
    requires course <= course'
    ensures forall r: Role :: StoppedSince(course, n, r) ==> StoppedSince(course', n, r)
  {
    forall r: Role | StoppedSince(course, n, r)
      ensures StoppedSince(course', n, r)
    {
      var k :| n <= k < |course| && !course[k].candidate.At(r).running;
      assert course'[k] == course[k];
    }
  }

  lemma StoppedOn(course0: Course, course: Course, course': Course)
    requires course0 <= course && Extends(course, course')
    ensures course0 <= course' && course <= course'
    ensures forall r: Role :: StoppedSince(course', |course|, r) ==> StoppedSince(course', |course0|, r)
    ensures forall r: Role :: StoppedSince(course, |course0|, r) ==> StoppedSince(course', |course0|, r)
  {
    StoppedStays(course, course', |course0|);
  }

  lemma HaltedBy(course: Course, course': Course)
    requires course <= course' && forall r: Role :: Seen(course, Restarts(r, No)) && StoppedSince(course', |course|, r)
    ensures Halted(course')
  {
    forall r: Role
      ensures RoleHalted(course', r)
    {
      var i :| 0 <= i < |course| && Shows(course[i], Restarts(r, No));
      var k :| |course| <= k < |course'| && !course'[k].candidate.At(r).running;
      assert course'[i] == course[i] && StoppedSince(course', i + 1, r);
    }
  }

  predicate WaitCode(c: Code) {
    c.JobActive? || c.SessionActive?
  }

  class Transition {
    const host: Host

    constructor (host: Host)
      ensures this.host == host
    {
      this.host := host;
    }

    // -- on every invocation -------------------------------------------------------------------

    method BaseChecks() returns (o: Outcome<Code>)
      requires host.Inv()
      modifies host`course, host`world, host`checked
      ensures Told(o, host.journal)
      ensures host.Inv()
      ensures o.Pass? ==> Seen(host.course, Owned)
      ensures o.Refused? ==> o.code == PortFailed || (o.code == Code.Scope && !host.world.owned)
      ensures if o.Pass? then host.checked else host.checked == old(host.checked)
    {
      hide SiteInv, ViewOf, Moves, Seen, Extends, Standing, Host.Inv;
      :- host.CheckEndpoint();
      StandsSeen(Owned);
      return Pass;
    }

    lemma StandsSeen(a: Aspect)
      requires host.Inv() && Shows(host.world, a)
      ensures Seen(host.course, a)
    {
      LastIsSeen(host.course, host.world, a);
    }

    lemma NoJobRuns()
      requires host.Inv() && !MigrationRunning(host.world)
      ensures Seen(host.course, NoMigrationJob)
    {
      StandsSeen(NoMigrationJob);
    }

    lemma StandsAgain(before: Course, a: Aspect)
      requires host.Inv() && Shows(host.world, a) && Seen(before, a)
      requires Extends(before, host.course) && |before| < |host.course|
      ensures SeenTwice(host.course, a)
    {
      SeenAgain(before, host.course, host.world, a);
    }

    /** One read of the real state, refused with a code when it does not show what is asked. */
    method Ask(a: Aspect, code: Code) returns (o: Outcome<Code>)
      requires host.Inv() && Plain(code)
      modifies host`course, host`journal, host`written, host`world
      ensures Told(o, host.journal) && (o.Refused? ==> o.code == code || o.code == PortFailed || o.code == JournalWrite)
      ensures host.Inv() && Quietly(old(host.View()), host.View())
      ensures o.Pass? ==> Read(old(host.View()), host.View(), old(host.course), host.course)
      ensures o.Pass? ==> Shows(host.world, a) && Seen(host.course, a) && |old(host.course)| < |host.course|
      ensures o.Pass? ==> host.journal == old(host.journal)
      ensures o.Pass? ==> Moves(host.terms, old(host.world), host.world)
    {
      hide SiteInv, ViewOf, Moves, Shows, Seen, Extends, Standing, Host.Inv, Check;
      var view: World;
      view :- host.Observe();
      CheckIs(view, a);
      if !Check(view, a) {
        o := host.Refuse(code);
        return;
      }
      StandsSeen(a);
      return Pass;
    }

    method RevalidateOne(r: Role) returns (o: Outcome<Code>)
      requires host.Inv() && host.View().legacy.observed.Some?
      modifies host`course, host`journal, host`written, host`world
      ensures Told(o, host.journal)
      ensures host.Inv() && Quietly(old(host.View()), host.View())
      ensures o.Pass? ==> Read(old(host.View()), host.View(), old(host.course), host.course)
      ensures o.Pass? ==> Seen(host.course, Revalid(host.View(), r))
    {
      hide SiteInv, ViewOf, Moves, Seen, Extends, Standing, RevalidateRole, Host.Inv;
      var view: World;
      view :- host.Observe();
      var v := host.View();
      var verdict := RevalidateRole(v, v.legacy.observed.value.At(r), view.legacy.At(r), r);
      if verdict.Refused? {
        o := host.Refuse(verdict.code);
        return;
      }
      StandsSeen(Revalid(v, r));
      return Pass;
    }

    /** Identity and state of the legacy and the candidate, whatever the journal says was done. */
    method Revalidate() returns (o: Outcome<Code>)
      requires host.Inv()
      modifies host`course, host`journal, host`written, host`world
      ensures Told(o, host.journal)
      ensures host.Inv() && Quietly(old(host.View()), host.View())
      ensures o.Pass? ==> Read(old(host.View()), host.View(), old(host.course), host.course)
      ensures o.Pass? ==> RevalidSeen(host.View(), host.course)
    {
      hide SiteInv, ViewOf, Seen, Standing, Shows, Host.Inv;
      ReadNothing(host.View(), host.course);
      if host.View().legacy.observed.None? { return Pass; }
      var v := host.View();
      for i := 0 to 4
        invariant host.Inv() && Read(v, host.View(), old(host.course), host.course)
        invariant forall q: Role :: ContainRank(q) < i ==> Seen(host.course, Revalid(v, q))
      {
        ghost var course := host.course;
        :- RevalidateOne(ROLES[i]);
        ReadOn(v, host.View(), old(host.course), course, host.course);
      }
      if !v.candidate.created { return Pass; }
      for i := 0 to 4
        invariant host.Inv() && Read(v, host.View(), old(host.course), host.course)
        invariant forall q: Role :: Seen(host.course, Revalid(v, q))
        invariant forall q: Role :: ContainRank(q) < i ==> Seen(host.course, CandidateKnown(q))
      {
        ghost var course := host.course;
        :- Ask(CandidateKnown(ROLES[i]), CandidateIdentity);
        ReadOn(v, host.View(), old(host.course), course, host.course);
      }
      return Pass;
    }

    /** A condition on a fresh observation, refused with a code when it fails. */
    method Demand(holds: bool, code: Code) returns (o: Outcome<Code>)
      requires host.Inv() && Plain(code)
      modifies host`course, host`journal, host`written
      ensures Told(o, host.journal) && (o.Refused? ==> o.code == code || o.code == JournalWrite)
      ensures host.Inv() && Quietly(old(host.View()), host.View())
      ensures o.Pass? ==> holds && host.View() == old(host.View()) && host.course == old(host.course)
    {
      hide SiteInv, ViewOf, Justified, Fits, Record, Moves, Host.Inv;
      if holds { return Pass; }
      o := host.Refuse(code);
    }

    /** A phase is recorded once. */
    method Reach(s: Stage) returns (o: Outcome<Code>)
      requires host.Inv() && (ReachedIn(host.View(), s) || StageAllowed(|host.terms.pending|, host.View(), s))
      requires ReachedIn(host.View(), s) || StageShown(host.terms, host.View(), host.world, host.course, s)
      modifies host`course, host`journal, host`written
      ensures Told(o, host.journal) && Unwaiting(o)
      ensures host.Inv()
      ensures ReachedIn(old(host.View()), s) ==> host.View() == old(host.View())
      ensures host.View() == old(host.View()) || host.View() == Record(old(host.View()), Reached(s))
      ensures o.Pass? ==> ReachedIn(host.View(), s)
      ensures Later(old(host.View()), host.View())
    {
      hide SiteInv, ViewOf, StageAllowed, StageShown, Later, Host.Inv;
      LaterSame(host.View());
      if ReachedIn(host.View(), s) { return Pass; }
      o := host.Write(Reached(s));
    }

    // -- the legacy --------------------------------------------------------------------------------

    method Observe() returns (o: Outcome<Code>)
      requires host.Inv() && !host.View().legacy.resuming
      modifies host`course, host`journal, host`written, host`world
      ensures Told(o, host.journal)
      ensures host.Inv() && Later(old(host.View()), host.View())
      ensures o.Pass? ==> Observed in host.View().stages
    {
      hide SiteInv, ViewOf, Moves, Seen, Extends, Standing, Host.Inv;
      :- Identify();
      if Observed in host.View().stages { return Pass; }
      :- Ask(Scoped, Code.Scope);
      o := Reach(Observed);
    }

    method LookAtLegacy(r: Role) returns (o: Outcome<Code>, item: Identity)
      requires host.Inv()
      modifies host`course, host`journal, host`written, host`world
      ensures Told(o, host.journal)
      ensures host.Inv() && Quietly(old(host.View()), host.View())
      ensures o.Pass? ==> Read(old(host.View()), host.View(), old(host.course), host.course)
      ensures o.Pass? ==> Seen(host.course, HealthyLegacy(r, item)) && item.policy == Always
    {
      hide SiteInv, ViewOf, Moves, Seen, Extends, Standing, Host.Inv;
      var view;
      o, view := host.Observe();
      var p := view.legacy.At(r);
      item := IdentityOf(p);
      if !o.Pass? { return; }
      if !(p.known && p.running && p.policy == Always) {
        o := host.Refuse(LegacyNotRunning);
        return;
      }
      StandsSeen(HealthyLegacy(r, item));
    }

    /** The legacy as it runs, role by role, and the ledger as it stands, once. */
    method Identify() returns (o: Outcome<Code>)
      requires host.Inv() && !host.View().legacy.resuming
      modifies host`course, host`journal, host`written, host`world
      ensures Told(o, host.journal)
      ensures host.Inv() && Later(old(host.View()), host.View()) && host.View().stages == old(host.View()).stages
      ensures o.Pass? ==> host.View().legacy.observed.Some?
    {
      hide SiteInv, ViewOf, Moves, Seen, Standing, Shows, Host.Inv;
      UncontainedIsUnmarked();
      if host.View().legacy.observed.Some? { return Pass; }
      ghost var v := host.View();
      var none := Identity(Always, 0, 0);
      var items := PerRole(none, none, none, none);
      for i := 0 to 4
        invariant host.Inv() && host.View() == v
        invariant forall q: Role :: items.At(q).policy == Always
        invariant forall q: Role :: ContainRank(q) < i ==> Seen(host.course, HealthyLegacy(q, items.At(q)))
      {
        var item;
        item :- LookAtLegacy(ROLES[i]);
        WithIs(items, ROLES[i], item);
        items := With(items, ROLES[i], item);
      }
      :- Ask(NoProject, CandidateIdentity);
      var view: World;
      view :- host.Observe();
      o := host.Write(Identified(items, view.db.ledger));
    }

    /** Polls until the container stopped, or the grace is over; a restart is refused. */
    method AwaitExit(r: Role, polls: nat) returns (o: Outcome<Code>, exited: bool)
      requires host.Inv() && host.View().legacy.observed.Some?
      modifies host`course, host`journal, host`written, host`world
      ensures Told(o, host.journal)
      ensures host.Inv() && Quietly(old(host.View()), host.View())
      ensures o.Pass? ==> host.View() == old(host.View())
      ensures o.Pass? && exited ==>
                && Seen(host.course, LegacyStopped(r))
                && host.world.legacy.At(r).started == host.View().legacy.observed.value.At(r).started
                && host.world.legacy.At(r).restarts == host.View().legacy.observed.value.At(r).restarts
    {
      hide SiteInv, ViewOf, Justified, Fits, Record, Moves, Host.Inv;
      exited := false;
      var item := host.View().legacy.observed.value.At(r);
      for k := 0 to polls
        invariant host.Inv() && host.View() == old(host.View())
      {
        var view;
        o, view := host.Observe();
        if !o.Pass? { return; }
        var p := view.legacy.At(r);
        if !Same(item, p) {
          o := host.Refuse(RestartedAfterSignal);
          return;
        }
        if !p.running {
          StandsSeen(LegacyStopped(r));
          return Pass, true;
        }
      }
      o := Pass;
    }

    method PersistNo(r: Role) returns (o: Outcome<Code>)
      requires host.checked && host.Inv() && host.View().legacy.observed.Some? && !host.View().legacy.resuming
      requires Contained !in host.View().stages && ExitsBefore(host.View(), r)
      modifies host`course, host`journal, host`written, host`world, host`trace
      ensures Told(o, host.journal)
      ensures host.Inv() && OnlyContaining(old(host.View()), host.View())
      ensures o.Pass? ==> PolicyNo(r) in host.View().legacy.done
    {
      hide SiteInv, ViewOf, Moves, ExitsBefore, Host.Inv, Seen, Shows, Extends, Standing;
      UncontainedIsUnmarked();
      if PolicyNo(r) in host.View().legacy.done { return Pass; }
      :- host.WriteIntent(PolicyNo(r));
      :- host.SetLegacyPolicy(r, No);
      :- Ask(LegacyPolicyIs(r, No), PolicyNotPersisted);
      o := host.WriteDone(PolicyNo(r), 0);
    }

    /** SIGTERM is sent with its intent, and again only by a journaled human decision. */
    method SendSignal(r: Role, again: bool) returns (o: Outcome<Code>)
      requires host.checked && host.Inv() && !host.View().legacy.resuming && !host.View().ddl.marker
      requires Contained !in host.View().stages && ExitsBefore(host.View(), r)
      requires PolicyNo(r) in host.View().legacy.done && Signal(r) !in host.View().legacy.done
      requires again <==> Signal(r) in host.View().legacy.intents
      requires again ==> Seen(host.course, LegacyRuns(r)) && host.decision == Some(Resignal(r))
      modifies host`course, host`journal, host`written, host`world, host`trace
      ensures Told(o, host.journal)
      ensures host.Inv() && OnlyContaining(old(host.View()), host.View())
      ensures o.Pass? ==> Signal(r) in host.View().legacy.intents && JustSent(host.trace, LegacySignal(r))
      ensures o.Pass? ==> host.View().legacy.done == old(host.View()).legacy.done
    {
      hide SiteInv, ViewOf, SignalsSent, ExitsBefore, Host.Inv;
      SignalsBounded(r);
      if again {
        :- host.WriteResignal(r);
      } else {
        :- host.WriteIntent(Signal(r));
      }
      o := host.SignalLegacy(r);
    }

    /** A signal that was intended and may not have been delivered is sent again by a decision alone; without one the
        exit is awaited. */
    method SignalAgain(r: Role, decision: Option<Decision>, polls: nat) returns (o: Outcome<Code>)
      requires host.checked && host.Inv() && host.View().legacy.observed.Some? && !host.View().legacy.resuming
      requires !host.View().ddl.marker && Contained !in host.View().stages && ExitsBefore(host.View(), r)
      requires PolicyNo(r) in host.View().legacy.done && Signal(r) in host.View().legacy.intents
      requires Signal(r) !in host.View().legacy.done && Seen(host.course, LegacyRuns(r))
      requires decision == host.decision
      modifies host`course, host`journal, host`written, host`world, host`trace
      ensures Told(o, host.journal)
      ensures host.Inv() && OnlyContaining(old(host.View()), host.View())
      ensures o.Pass? ==> Signal(r) in host.View().legacy.intents
                          && host.View().legacy.done == old(host.View()).legacy.done
      ensures o.Pass? ==> Seen(host.course, LegacyStopped(r)) || JustSent(host.trace, LegacySignal(r))
    {
      hide SiteInv, ViewOf, ExitsBefore, Seen, Shows, Host.Inv;
      if decision == Some(Resignal(r)) {
        o := SendSignal(r, true);
      } else {
        var exited;
        exited :- AwaitExit(r, polls);
        o := Demand(exited, SignalAmbiguous);
      }
    }

    method SignalRole(r: Role, decision: Option<Decision>, polls: nat) returns (o: Outcome<Code>)
      requires host.checked && host.Inv() && host.View().legacy.observed.Some? && !host.View().legacy.resuming
      requires Contained !in host.View().stages && ExitsBefore(host.View(), r) && PolicyNo(r) in host.View().legacy.done
      requires decision == host.decision
      modifies host`course, host`journal, host`written, host`world, host`trace
      ensures Told(o, host.journal)
      ensures host.Inv() && OnlyContaining(old(host.View()), host.View())
      ensures o.Pass? ==> Signal(r) in host.View().legacy.done
    {
      hide SiteInv, ViewOf, Moves, ExitsBefore, Host.Inv, Seen, Shows, Extends;
      UncontainedIsUnmarked();
      if Signal(r) in host.View().legacy.done { return Pass; }
      var view: World;
      view :- host.Observe();
      if Signal(r) !in host.View().legacy.intents {
        :- SendSignal(r, false);
      } else if !view.legacy.At(r).running {
        StandsSeen(LegacyStopped(r));
      } else {
        StandsSeen(LegacyRuns(r));
        :- SignalAgain(r, decision, polls);
      }
      o := host.WriteDone(Signal(r), 0);
    }

    method ContainRole(r: Role, decision: Option<Decision>, polls: nat) returns (o: Outcome<Code>)
      requires host.checked && host.Inv() && host.View().legacy.observed.Some? && !host.View().legacy.resuming
      requires Contained !in host.View().stages && ExitsBefore(host.View(), r)
      requires decision == host.decision
      modifies host`course, host`journal, host`written, host`world, host`trace
      ensures Told(o, host.journal)
      ensures host.Inv() && Later(old(host.View()), host.View()) && host.View().stages == old(host.View()).stages
      ensures o.Pass? ==> Exit(r) in host.View().legacy.done
      ensures o.Pass? && Exit(r) !in old(host.View()).legacy.done ==>
                VerifyContainedExit(old(host.View()).legacy.observed.value.At(r), host.world.legacy.At(r)).Pass?
    {
      hide SiteInv, ViewOf, Moves, ExitsBefore, OnlyContaining, Later, Host.Inv;
      ghost var v := host.View();
      LaterSame(v);
      if Exit(r) in host.View().legacy.done { return Pass; }
      o := PersistNo(r);
      OnlyContainingMeans(v, host.View(), r);
      if !o.Pass? { return; }
      ghost var v1 := host.View();
      o := SignalRole(r, decision, polls);
      OnlyContainingTwice(v, v1, host.View());
      OnlyContainingMeans(v, host.View(), r);
      if !o.Pass? { return; }
      ghost var v2 := host.View();
      o := ConfirmExit(r, polls);
      LaterTwice(v, v2, host.View());
    }

    method ConfirmExit(r: Role, polls: nat) returns (o: Outcome<Code>)
      requires host.Inv() && host.View().legacy.observed.Some? && !host.View().legacy.resuming
      requires Contained !in host.View().stages && ExitsBefore(host.View(), r)
      requires Signal(r) in host.View().legacy.done && Exit(r) !in host.View().legacy.done
      modifies host`course, host`journal, host`written, host`world
      ensures Told(o, host.journal)
      ensures host.Inv() && Later(old(host.View()), host.View()) && host.View().stages == old(host.View()).stages
      ensures o.Pass? ==> Exit(r) in host.View().legacy.done
      ensures o.Pass? && Exit(r) !in old(host.View()).legacy.done ==>
                VerifyContainedExit(old(host.View()).legacy.observed.value.At(r), host.world.legacy.At(r)).Pass?
    {
      hide SiteInv, ViewOf, Moves, ExitsBefore, Host.Inv;
      var exited;
      exited :- AwaitExit(r, polls);
      :- Demand(exited, GracefulTimeout);
      var view: World;
      view :- host.Observe();
      var verdict := VerifyContainedExit(host.View().legacy.observed.value.At(r), view.legacy.At(r));
      if verdict.Refused? {
        o := host.Refuse(verdict.code);
        return;
      }
      o := host.WriteDone(Exit(r), 0);
    }

    method ContainRoles(decision: Option<Decision>, polls: nat) returns (o: Outcome<Code>)
      requires host.checked && host.Inv() && host.View().legacy.observed.Some? && !host.View().legacy.resuming
      requires Contained !in host.View().stages
      requires decision == host.decision
      modifies host`course, host`journal, host`written, host`world, host`trace
      ensures Told(o, host.journal)
      ensures host.Inv() && Later(old(host.View()), host.View()) && host.View().stages == old(host.View()).stages
      ensures o.Pass? ==> forall r: Role :: Exit(r) in host.View().legacy.done
    {
      hide SiteInv, ViewOf, Host.Inv;
      for i := 0 to 4
        invariant host.Inv() && Later(old(host.View()), host.View()) && host.View().stages == old(host.View()).stages
        invariant forall q: Role :: ContainRank(q) < i ==> Exit(q) in host.View().legacy.done
      {
        :- ContainRole(ROLES[i], decision, polls);
      }
      return Pass;
    }

    method Contain(decision: Option<Decision>, polls: nat) returns (o: Outcome<Code>)
      requires host.checked && host.Inv() && !host.View().legacy.resuming && Observed in host.View().stages
      requires decision == host.decision
      modifies host`course, host`journal, host`written, host`world, host`trace
      ensures Told(o, host.journal)
      ensures host.Inv() && Later(old(host.View()), host.View())
      ensures o.Pass? ==> Contained in host.View().stages
    {
      hide SiteInv, ViewOf, Moves, Host.Inv;
      UncontainedIsUnmarked();
      if Contained in host.View().stages { return Pass; }
      :- ContainRoles(decision, polls);
      :- Ask(Scoped, Code.Scope);
      o := Reach(Contained);
    }

    /** Expected effects of the drain first, then two equal snapshots, of the data and of Redis each. */
    method Settle() returns (o: Outcome<Code>)
      requires host.Inv() && !host.View().legacy.resuming && Contained in host.View().stages
      modifies host`course, host`journal, host`written, host`world
      ensures Told(o, host.journal)
      ensures host.Inv() && Later(old(host.View()), host.View())
      ensures o.Pass? ==> Settled in host.View().stages
    {
      hide SiteInv, ViewOf, Moves, Seen, SeenTwice, Standing, Shows, Host.Inv;
      if Settled in host.View().stages { return Pass; }
      :- Ask(Expected, ExpectationMismatch);
      var first;
      first :- Snapshot();
      :- Again(DataIs(first.data), UnstableAfterDrain);
      :- Again(RedisIs(first.redis), UnstableAfterDrain);
      :- Ask(Scoped, Code.Scope);
      o := RecordSettled(first);
    }

    method RecordSettled(snap: Snap) returns (o: Outcome<Code>)
      requires host.Inv() && !host.View().legacy.resuming && Contained in host.View().stages
      requires Settled !in host.View().stages && Seen(host.course, Expected) && Seen(host.course, Scoped)
      requires SeenTwice(host.course, DataIs(snap.data)) && SeenTwice(host.course, RedisIs(snap.redis))
      modifies host`course, host`journal, host`written
      ensures Told(o, host.journal)
      ensures host.Inv() && Later(old(host.View()), host.View())
      ensures o.Pass? ==> Settled in host.View().stages
    {
      hide SiteInv, ViewOf, Seen, SeenTwice, Standing, Shows, Host.Inv;
      :- host.Write(Event.Settle(snap));
      o := Reach(Settled);
    }

    /** The data, and after it Redis. */
    method Snapshot() returns (o: Outcome<Code>, snap: Snap)
      requires host.Inv()
      modifies host`course, host`world
      ensures Told(o, host.journal)
      ensures host.Inv() && Extends(old(host.course), host.course)
      ensures o.Pass? ==> Seen(host.course, DataIs(snap.data)) && Seen(host.course, RedisIs(snap.redis))
    {
      hide SiteInv, ViewOf, Moves, Seen, Standing, Host.Inv;
      var first, second;
      o, first := host.Observe();
      snap := Snap(first.data, first.redis);
      if !o.Pass? { return; }
      StandsSeen(DataIs(first.data));
      o, second := host.Observe();
      snap := Snap(first.data, second.redis);
      if !o.Pass? { return; }
      StandsSeen(RedisIs(second.redis));
    }

    /** What was seen before is seen once more. */
    method Again(a: Aspect, code: Code) returns (o: Outcome<Code>)
      requires host.Inv() && Seen(host.course, a)
      requires Plain(code)
      modifies host`course, host`journal, host`written, host`world
      ensures Told(o, host.journal)
      ensures host.Inv() && Quietly(old(host.View()), host.View())
      ensures o.Pass? ==> Read(old(host.View()), host.View(), old(host.course), host.course)
      ensures o.Pass? ==> SeenTwice(host.course, a)
    {
      hide SiteInv, ViewOf, Moves, Seen, SeenTwice, Shows, Host.Inv;
      ghost var before := host.course;
      :- Ask(a, code);
      StandsAgain(before, a);
      return Pass;
    }

    // -- jobs ---------------------------------------------------------------------------------------

    /** A job's refusal names its migration, when it is one's; it is of no attempt. */
    method RefuseJob(n: JobName, code: Code) returns (o: Outcome<Code>)
      requires host.Inv() && JobAllowed(host.View(), n) && Plain(code)
      modifies host`course, host`journal, host`written
      ensures Told(o, host.journal)
      ensures host.Inv() && !o.Pass? && OnlyJobs(old(host.View()), host.View())
    {
      hide SiteInv, ViewOf, Host.Inv;
      if n.ApplyJob? {
        o := host.Refuse(code);
      } else {
        o := host.Write(MigrationRefused(n.index, None, code));
        if o.Pass? { o := Refused(code); }
      }
    }

    method RecordJob(n: JobName, id: nat) returns (o: Outcome<Code>)
      requires host.Inv() && JobAllowed(host.View(), n) && n in host.View().ddl.jobIntents && n !in host.View().ddl.jobs
      requires n in host.world.jobs && host.world.jobs[n].id == id && host.world.jobs[n].matches
      modifies host`course, host`journal, host`written
      ensures Told(o, host.journal)
      ensures host.Inv() && OnlyJobs(old(host.View()), host.View())
      ensures o.Pass? ==> n in host.View().ddl.jobs && host.View().ddl.refused == old(host.View()).ddl.refused
                          && host.View().ddl.jobs[n] == id
    {
      hide SiteInv, ViewOf, JobAllowed, Host.Inv;
      o := host.Write(JobRecorded(n, id));
    }

    /** The container is created once, its intent journaled first; a replay adopts only the identical one, which is
        the recorded one if any was. */
    method EnsureJob(n: JobName) returns (o: Outcome<Code>)
      requires host.checked && host.Inv() && JobAllowed(host.View(), n)
      requires host.terms.kept && n.MigrationJob? && n !in host.world.jobs && n !in host.View().ddl.jobs ==>
                 n in host.View().ddl.begun
      modifies host`course, host`journal, host`written, host`world, host`trace
      ensures Told(o, host.journal)
      ensures host.Inv() && OnlyJobs(old(host.View()), host.View())
      ensures o.Pass? ==> host.View().ddl.refused == old(host.View()).ddl.refused
      ensures o.Pass? ==> JobStands(host.View(), host.world, n)
      ensures n in old(host.View()).ddl.jobs && o.Pass? ==>
                host.View().ddl.jobs == old(host.View()).ddl.jobs && host.trace == old(host.trace)
      ensures host.terms.kept && n in old(host.world).jobs ==>
                && host.trace == old(host.trace) && n in host.world.jobs
                && Progressed(old(host.world).jobs[n], host.world.jobs[n])
    {
      hide SiteInv, ViewOf, Justified, Fits, Record, JobAllowed, Later, Host.Inv;
      var view: World;
      view :- host.Observe();
      var found, recorded := n in view.jobs, n in host.View().ddl.jobs;
      if recorded && (!found || view.jobs[n].id != host.View().ddl.jobs[n]) {
        o := RefuseJob(n, JobAmbiguous);
        return;
      }
      if !found {
        o := NewJob(n);
        return;
      }
      if !view.jobs[n].matches {
        o := RefuseJob(n, JobMismatch);
        return;
      }
      if recorded { return Pass; }
      if n !in host.View().ddl.jobIntents {
        o := RefuseJob(n, JobWithoutIntent);
        return;
      }
      o := RecordJob(n, view.jobs[n].id);
    }

    method NewJob(n: JobName) returns (o: Outcome<Code>)
      requires host.checked
      requires host.Inv() && JobAllowed(host.View(), n) && n !in host.View().ddl.jobs && n !in host.world.jobs
      requires host.terms.kept && n.MigrationJob? ==> n in host.View().ddl.begun
      modifies host`course, host`journal, host`written, host`world, host`trace
      ensures Told(o, host.journal)
      ensures host.Inv() && OnlyJobs(old(host.View()), host.View())
      ensures o.Pass? ==> host.View().ddl.refused == old(host.View()).ddl.refused
      ensures o.Pass? ==> JobStands(host.View(), host.world, n)
    {
      hide SiteInv, ViewOf, Later, Host.Inv;
      ghost var v := host.View();
      o := host.Write(JobIntended(n));
      OnlyJobsAllow(v, host.View(), n);
      if !o.Pass? { return; }
      var id;
      id :- host.CreateJob(n);
      o := RecordJob(n, id);
    }

    /** The recorded container, not yet started, is started; a running one is only awaited. The exit is that of the
        recorded container once it ended. */
    method RunJob(n: JobName, polls: nat) returns (o: Outcome<Code>, exit: Option<int>)
      requires host.checked && host.Inv() && JobAllowed(host.View(), n) && n in host.View().ddl.jobs
      modifies host`course, host`journal, host`written, host`world, host`trace
      ensures Told(o, host.journal)
      ensures host.Inv() && Quietly(old(host.View()), host.View())
      ensures o.Pass? ==> host.View() == old(host.View())
      ensures o.Pass? && host.terms.kept ==> Ended(host.world, n, exit)
      ensures host.trace == old(host.trace)
              || (exists view :: SentOne(old(host.trace), host.trace, JobStart(n), view)
                    && n in view.jobs && view.jobs[n].id == old(host.View()).ddl.jobs[n]
                    && view.jobs[n].status.Created?)
      ensures host.terms.kept && n in old(host.world).jobs && !old(host.world).jobs[n].status.Created? ==>
                host.trace == old(host.trace)
    {
      hide SiteInv, ViewOf, Moves, JobAllowed, Extends, Standing, Host.Inv;
      exit := None;
      ghost var before := host.world;
      var id := host.View().ddl.jobs[n];
      var view: World;
      o, view := host.Observe();
      if !o.Pass? { return; }
      JobIsThere(n);
      JobMoves(host.terms, before, view, n);
      if n in view.jobs && view.jobs[n].id == id && view.jobs[n].status.Created? {
        o := host.StartJob(n);
        if !o.Pass? { return; }
      }
      o, exit := AwaitJob(n, id, polls);
    }

    method AwaitJob(n: JobName, id: nat, polls: nat) returns (o: Outcome<Code>, exit: Option<int>)
      requires host.Inv()
      requires host.terms.kept ==>
                 n in host.world.jobs && host.world.jobs[n].id == id && !host.world.jobs[n].status.Created?
      modifies host`course, host`journal, host`written, host`world
      ensures Told(o, host.journal)
      ensures host.Inv() && Quietly(old(host.View()), host.View())
      ensures o.Pass? ==> host.View() == old(host.View())
      ensures o.Pass? && host.terms.kept ==> Ended(host.world, n, exit)
    {
      hide SiteInv, ViewOf, Moves, Extends, Standing, Host.Inv;
      exit := None;
      for k := 0 to polls + 1
        invariant host.Inv() && host.View() == old(host.View())
        invariant host.terms.kept ==>
                    n in host.world.jobs && host.world.jobs[n].id == id && !host.world.jobs[n].status.Created?
        invariant k > 0 ==> n in host.world.jobs && host.world.jobs[n].status.Running?
      {
        ghost var w := host.world;
        var view;
        o, view := host.Observe();
        if !o.Pass? { return; }
        JobMoves(host.terms, w, view, n);
        var mine := n in view.jobs && view.jobs[n].id == id;
        if !(mine && view.jobs[n].status.Running?) {
          return Pass, if mine then Some(view.jobs[n].exit) else None;
        }
      }
      o := host.Wait(JobActive);
    }

    /** One owned job: created at most once, started at most once, adopted after a crash. */
    method Job(n: JobName, polls: nat) returns (o: Outcome<Code>, exit: Option<int>)
      requires host.checked && host.Inv() && JobAllowed(host.View(), n)
      requires host.terms.kept && n.MigrationJob? && n !in host.world.jobs && n !in host.View().ddl.jobs ==>
                 n in host.View().ddl.begun
      modifies host`course, host`journal, host`written, host`world, host`trace
      ensures Told(o, host.journal)
      ensures host.Inv() && OnlyJobs(old(host.View()), host.View())
      ensures o.Pass? ==> n in host.View().ddl.jobs && host.View().ddl.refused == old(host.View()).ddl.refused
      ensures n in old(host.View()).ddl.jobs && o.Pass? ==> host.View().ddl.jobs == old(host.View()).ddl.jobs
      ensures o.Pass? && host.terms.kept ==> Ended(host.world, n, exit)
      ensures host.terms.kept && n in old(host.world).jobs && !old(host.world).jobs[n].status.Created? ==>
                host.trace == old(host.trace)
    {
      hide SiteInv, ViewOf, JobAllowed, Host.Inv;
      ghost var v := host.View();
      exit := None;
      o := EnsureJob(n);
      OnlyJobsAllow(v, host.View(), n);
      if !o.Pass? { return; }
      o, exit := RunJob(n, polls);
    }

    // -- the reconciliation ---------------------------------------------------------------------------

    /** Applies or adopts once, accepts only the exact authorized effect, and journals the verified state. In a
        resume nothing is created or started. */
    method FinishReconcile(create: bool, polls: nat) returns (o: Outcome<Code>, finished: bool)
      requires host.checked
      requires host.Inv() && !host.View().ddl.marker && host.View().data.base.Some? && host.terms.reconcile.Some?
      modifies host`course, host`journal, host`written, host`world, host`trace
      ensures Told(o, host.journal)
      ensures host.Inv() && Later(old(host.View()), host.View())
      ensures !host.View().ddl.marker && host.View().stages == old(host.View()).stages
      ensures o.Pass? ==> (finished <==> host.View().data.verified) && (create ==> finished)
      ensures o.Pass? && !finished ==> Seen(host.course, ApplyIdle)
      ensures !create && host.terms.kept ==> host.trace == old(host.trace)
    {
      hide SiteInv, ViewOf, Moves, Later, OnlyJobs, Extends, Standing, Host.Inv;
      ghost var v := host.View();
      LaterSame(v);
      finished := true;
      if host.View().data.verified { return Pass, true; }
      var view;
      o, view := host.Observe();
      if !o.Pass? { return; }
      if !create && (ApplyJob !in view.jobs || view.jobs[ApplyJob].status.Created?) {
        StandsSeen(ApplyIdle);
        return Pass, false;
      }
      var exit;
      o, exit := Job(ApplyJob, polls);
      OnlyJobsMeans(v, host.View());
      if !o.Pass? { return; }
      ghost var v1 := host.View();
      o := Demand(exit == Some(0), ReconcileApply);
      QuietlyMeans(v1, host.View());
      LaterTwice(v, v1, host.View());
      if !o.Pass? { return; }
      o := VerifyReconciliation();
      LaterTwice(v, v1, host.View());
    }

    /** Three reads: the data in the scope of the change, Redis, and the duplicate links. */
    method VerifyReconciliation() returns (o: Outcome<Code>)
      requires host.Inv() && !host.View().ddl.marker && host.View().data.base.Some? && host.terms.reconcile.Some?
      requires !host.View().data.verified
      requires host.terms.kept ==> Succeeded(host.world, ApplyJob)
      modifies host`course, host`journal, host`written, host`world
      ensures Told(o, host.journal)
      ensures host.Inv() && Later(old(host.View()), host.View())
      ensures !host.View().ddl.marker && host.View().stages == old(host.View()).stages
      ensures o.Pass? ==> host.View().data.verified
    {
      hide SiteInv, ViewOf, Moves, Matches, Seen, Standing, Shows, Host.Inv, Extends;
      var base := host.View().data.base.value;
      var data;
      data :- ReadDelta();
      ghost var v, course := host.View(), host.course;
      :- AskAfter(ApplyJob, RedisIs(base.redis), ReconcileDelta);
      ReadKeeps(v, host.View(), course, host.course, DataIs(data));
      course := host.course;
      :- AskAfter(ApplyJob, NoDuplicate, ReconcileDelta);
      ReadKeeps(v, host.View(), course, host.course, DataIs(data));
      ReadKeeps(v, host.View(), course, host.course, RedisIs(base.redis));
      o := RecordVerified(data);
    }

    /** The receipt of the apply, once, and the verified snapshot: the one that was read. */
    method RecordVerified(data: Data) returns (o: Outcome<Code>)
      requires host.Inv() && !host.View().ddl.marker && host.View().data.base.Some? && host.terms.reconcile.Some?
      requires !host.View().data.verified && (host.terms.kept ==> Succeeded(host.world, ApplyJob))
      requires Matches(host.terms.TheCase(), host.View().data.base.value.scope, data)
      requires Seen(host.course, DataIs(data)) && Seen(host.course, RedisIs(host.View().data.base.value.redis))
      requires Seen(host.course, NoDuplicate)
      modifies host`course, host`journal, host`written
      ensures Told(o, host.journal)
      ensures host.Inv() && Later(old(host.View()), host.View())
      ensures !host.View().ddl.marker && host.View().stages == old(host.View()).stages
      ensures o.Pass? ==> host.View().data.verified
    {
      hide SiteInv, ViewOf, Matches, Seen, Standing, Shows, Host.Inv;
      var base := host.View().data.base.value;
      if !host.View().data.applied {
        :- host.Write(ReconcileDone);
      }
      o := host.Write(Verified(Snap(data, base.redis)));
    }

    method ReadDelta() returns (o: Outcome<Code>, data: Data)
      requires host.Inv() && host.View().data.base.Some?
      requires host.terms.kept ==> Succeeded(host.world, ApplyJob)
      modifies host`course, host`journal, host`written, host`world
      ensures Told(o, host.journal)
      ensures host.Inv() && Quietly(old(host.View()), host.View())
      ensures o.Pass? ==> Read(old(host.View()), host.View(), old(host.course), host.course)
      ensures o.Pass? ==> Seen(host.course, DataIs(data))
                          && Matches(host.terms.TheCase(), host.View().data.base.value.scope, data)
      ensures o.Pass? && host.terms.kept ==> Succeeded(host.world, ApplyJob)
    {
      hide SiteInv, ViewOf, Moves, Matches, Seen, Extends, Standing, Host.Inv;
      ghost var w := host.world;
      var view;
      o, view := host.Observe();
      data := view.data;
      if !o.Pass? { return; }
      JobMoves(host.terms, w, view, ApplyJob);
      if !Matches(host.terms.TheCase(), host.View().data.base.value.scope, data) {
        o := host.Refuse(ReconcileDelta);
        return;
      }
      StandsSeen(DataIs(data));
    }

    /** A read after a job that succeeded: its container stays what it is. */
    method AskAfter(n: JobName, a: Aspect, code: Code) returns (o: Outcome<Code>)
      requires host.Inv() && (host.terms.kept ==> Succeeded(host.world, n))
      requires Plain(code)
      modifies host`course, host`journal, host`written, host`world
      ensures Told(o, host.journal)
      ensures host.Inv() && Quietly(old(host.View()), host.View())
      ensures o.Pass? ==> Read(old(host.View()), host.View(), old(host.course), host.course)
      ensures o.Pass? ==> Shows(host.world, a) && Seen(host.course, a)
      ensures o.Pass? && host.terms.kept ==> Succeeded(host.world, n)
    {
      hide SiteInv, ViewOf, Moves, Seen, Extends, Standing, Shows, Host.Inv;
      ghost var w := host.world;
      :- Ask(a, code);
      JobMoves(host.terms, w, host.world, n);
      return Pass;
    }

    /** The data and Redis are those of the last snapshot. */
    method Unchanged() returns (o: Outcome<Code>)
      requires host.Inv()
      modifies host`course, host`journal, host`written, host`world
      ensures Told(o, host.journal)
      ensures host.Inv() && Quietly(old(host.View()), host.View())
      ensures o.Pass? ==> Read(old(host.View()), host.View(), old(host.course), host.course)
      ensures o.Pass? ==> SnapshotSeen(host.View(), host.course)
    {
      hide SiteInv, ViewOf, Moves, Seen, Standing, Shows, Host.Inv;
      if host.View().data.snapshot.None? {
        o := host.Refuse(WriterAfterSettle);
        return;
      }
      var settled := host.View().data.snapshot.value;
      :- Ask(DataIs(settled.data), WriterAfterSettle);
      :- Ask(RedisIs(settled.redis), WriterAfterSettle);
      return Pass;
    }

    /** The baseline of the change, proved on the settled state and journaled before the apply. */
    method ReconcileBase() returns (o: Outcome<Code>)
      requires host.Inv() && !host.View().legacy.resuming && Settled in host.View().stages
      requires Reconciled !in host.View().stages && host.terms.reconcile.Some?
      modifies host`course, host`journal, host`written, host`world
      ensures Told(o, host.journal)
      ensures host.Inv() && Later(old(host.View()), host.View()) && host.View().stages == old(host.View()).stages
      ensures o.Pass? ==> host.View().data.base.Some?
    {
      hide SiteInv, ViewOf, Moves, Seen, Standing, Shows, SnapshotSeen, Later, Host.Inv;
      ghost var v := host.View();
      LaterSame(v);
      if host.View().data.base.Some? { return Pass; }
      o := Unchanged();
      QuietlyMeans(v, host.View());
      if !o.Pass? { return; }
      ghost var v1 := host.View();
      o := PreviewOnce();
      LaterTwice(v, v1, host.View());
      if !o.Pass? { return; }
      ghost var v2 := host.View();
      o := TakeBase();
      LaterTwice(v, v2, host.View());
    }

    /** The preview is passed once, over data and Redis just found unchanged. */
    method PreviewOnce() returns (o: Outcome<Code>)
      requires host.Inv() && !host.View().legacy.resuming && Settled in host.View().stages
      requires Reconciled !in host.View().stages && SnapshotSeen(host.View(), host.course)
      modifies host`course, host`journal, host`written, host`world
      ensures Told(o, host.journal)
      ensures host.Inv() && Later(old(host.View()), host.View()) && host.View().stages == old(host.View()).stages
      ensures host.View().data.base == old(host.View()).data.base
      ensures o.Pass? ==> host.View().data.preview
    {
      hide SiteInv, ViewOf, Seen, Shows, Host.Inv;
      if host.View().data.preview { return Pass; }
      :- Ask(PreviewOk, Code.ReconcilePreview);
      o := host.Write(Preview);
    }

    method TakeBase() returns (o: Outcome<Code>)
      requires host.Inv() && !host.View().legacy.resuming && Settled in host.View().stages
      requires host.View().data.base.None? && host.View().data.preview && host.terms.reconcile.Some?
      modifies host`course, host`journal, host`written, host`world
      ensures Told(o, host.journal)
      ensures host.Inv() && Later(old(host.View()), host.View()) && host.View().stages == old(host.View()).stages
      ensures o.Pass? ==> host.View().data.base.Some?
    {
      hide SiteInv, ViewOf, Moves, Seen, Standing, Shows, Host.Inv;
      :- Unchanged();
      var settled := host.View().data.snapshot.value;
      var scope := ScopeOf(host.terms.TheCase(), settled.data);
      :- Demand(Precondition(host.terms.TheCase(), scope), ReconcilePrecondition);
      o := host.Write(Event.ReconcileBaseline(scope, settled.redis));
    }

    /** Without a configured change there must be no duplicate link. */
    method SkipReconcile() returns (o: Outcome<Code>)
      requires host.Inv() && !host.View().legacy.resuming && Settled in host.View().stages
      requires Seen(host.course, Expected)
      modifies host`course, host`journal, host`written, host`world
      ensures Told(o, host.journal)
      ensures host.Inv() && Later(old(host.View()), host.View()) && host.View().stages == old(host.View()).stages
      ensures o.Pass? ==> host.View().data.skipped
    {
      hide SiteInv, ViewOf, Seen, Shows, Later, Host.Inv;
      QuietlyMeans(host.View(), host.View());
      LaterSame(host.View());
      o := Ask(NoDuplicate, DuplicateWithoutReconciliation);
      QuietlyMeans(old(host.View()), host.View());
      if !o.Pass? { return; }
      o := host.Write(ReconcileSkipped);
    }

    method Reconcile(polls: nat) returns (o: Outcome<Code>)
      requires host.checked && host.Inv() && !host.View().legacy.resuming && Settled in host.View().stages
      modifies host`course, host`journal, host`written, host`world, host`trace
      ensures Told(o, host.journal)
      ensures host.Inv() && Later(old(host.View()), host.View())
      ensures o.Pass? ==> Reconciled in host.View().stages
    {
      hide SiteInv, ViewOf, Moves, Seen, Standing, Shows, Host.Inv;
      UncontainedIsUnmarked();
      if Reconciled in host.View().stages { return Pass; }
      :- Ask(Expected, ExpectationMismatch);
      if host.terms.reconcile.None? {
        :- SkipReconcile();
      } else {
        :- ReconcileBase();
        :- Demand(host.View().data.preview, Code.ReconcilePreview);
        UncontainedIsUnmarked();
        var finished;
        finished :- FinishReconcile(true, polls);
      }
      o := Reach(Reconciled);
    }

    // -- up to the marker, and the migrations ----------------------------------------------------------

    /** Baseline ledger and no trace of DDL, in the database or in the journal. */
    method Untouched() returns (o: Outcome<Code>)
      requires host.Inv()
      modifies host`course, host`journal, host`written, host`world
      ensures Told(o, host.journal)
      ensures host.Inv() && Quietly(old(host.View()), host.View())
      ensures o.Pass? ==> Read(old(host.View()), host.View(), old(host.course), host.course)
      ensures o.Pass? ==> UntouchedSeen(host.View(), host.course)
    {
      hide SiteInv, ViewOf, Moves, Seen, Standing, Shows, Host.Inv;
      var v := host.View();
      :- Ask(LedgerIs(v.legacy.ledger), LedgerNotBaseline);
      :- Ask(NoInvalid, DdlTrace);
      :- Ask(NoBuilds, DdlTrace);
      :- Ask(NoSessions, DdlTrace);
      o := Demand((forall n <- v.ddl.jobs :: n.ApplyJob?) && !v.candidate.created, DdlTrace);
    }

    method StillContained() returns (o: Outcome<Code>)
      requires host.Inv() && host.View().legacy.observed.Some?
      modifies host`course, host`journal, host`written, host`world
      ensures Told(o, host.journal)
      ensures host.Inv() && Quietly(old(host.View()), host.View())
      ensures o.Pass? ==> Read(old(host.View()), host.View(), old(host.course), host.course)
      ensures o.Pass? ==> ContainedSeen(host.View(), host.course)
    {
      hide SiteInv, ViewOf, Moves, Seen, Standing, Shows, Host.Inv;
      ReadNothing(host.View(), host.course);
      var v := host.View();
      for i := 0 to 4
        invariant host.Inv() && Read(v, host.View(), old(host.course), host.course)
        invariant forall q: Role :: ContainRank(q) < i ==>
                    Seen(host.course, ContainedExit(q, v.legacy.observed.value.At(q)))
      {
        ghost var course := host.course;
        :- Ask(ContainedExit(ROLES[i], v.legacy.observed.value.At(ROLES[i])), LegacyNotContained);
        ReadOn(v, host.View(), old(host.course), course, host.course);
      }
      return Pass;
    }

    /** Baseline ledger, no trace of DDL, the last snapshot unchanged, the legacy contained, nobody else. */
    method PreDdlState() returns (o: Outcome<Code>)
      requires host.Inv() && host.View().legacy.observed.Some?
      modifies host`course, host`journal, host`written, host`world
      ensures Told(o, host.journal)
      ensures host.Inv() && Quietly(old(host.View()), host.View())
      ensures o.Pass? ==> Read(old(host.View()), host.View(), old(host.course), host.course)
      ensures o.Pass? ==> PreDdlSeen(host.View(), host.course)
      ensures o.Pass? ==> !host.View().candidate.created && forall n <- host.View().ddl.jobs :: n.ApplyJob?
    {
      hide SiteInv, ViewOf, Moves, Seen, Standing, Shows, Host.Inv;
      :- Untouched();
      :- Unchanged();
      :- Ask(Expected, ExpectationMismatch);
      :- StillContained();
      :- Ask(Scoped, Code.Scope);
      return Pass;
    }

    method Preflight() returns (o: Outcome<Code>)
      requires host.Inv() && !host.View().legacy.resuming && Reconciled in host.View().stages
      modifies host`course, host`journal, host`written, host`world
      ensures Told(o, host.journal)
      ensures host.Inv() && Later(old(host.View()), host.View())
      ensures o.Pass? ==> Preflighted in host.View().stages
    {
      hide SiteInv, ViewOf, Moves, Host.Inv, PreDdlSeen, Seen, Shows;
      UncontainedIsUnmarked();
      if Preflighted in host.View().stages { return Pass; }
      :- Ask(BackfillDone, BackfillCandidates);
      :- Ask(PreflightOk, PreflightFailed);
      :- PreDdlState();
      o := Reach(Preflighted);
    }

    /** Right before the marker everything is proved once more; a kill between it and its phase loses the phase. */
    method Mark() returns (o: Outcome<Code>)
      requires host.Inv() && !host.View().legacy.resuming && Preflighted in host.View().stages
      modifies host`course, host`journal, host`written, host`world
      ensures Told(o, host.journal)
      ensures host.Inv() && Later(old(host.View()), host.View())
      ensures o.Pass? ==> host.View().ddl.marker
      ensures o.Pass? && !old(host.View()).ddl.marker ==> DdlStarted in host.View().stages
    {
      hide SiteInv, ViewOf, Moves, Host.Inv, PreDdlSeen;
      UncontainedIsUnmarked();
      if host.View().ddl.marker { return Pass; }
      :- PreDdlState();
      :- host.Write(DdlMarker);
      o := Reach(DdlStarted);
    }

    method RefuseMigration(i: Index, code: Code) returns (o: Outcome<Code>)
      requires host.Inv() && host.View().ddl.marker && i == host.View().ddl.done
      requires host.terms.kept ==> !Active(host.world, MigrationJob(i, Attempt(host.View(), i)))
      requires RefusalShown(host.terms, host.View(), host.world, host.course, i, code) && Plain(code)
      modifies host`course, host`journal, host`written
      ensures Told(o, host.journal) && (o.Refused? ==> o.code == code || o.code == JournalWrite)
      ensures host.Inv() && !o.Pass? && OnlyJobs(old(host.View()), host.View())
    {
      hide SiteInv, ViewOf, Later, RefusalShown, Host.Inv;
      o := host.Write(MigrationRefused(i, Some(Attempt(host.View(), i)), code));
      if o.Pass? { o := Refused(code); }
    }

    /** A refused attempt stays refused; only a human decision, and only when nothing of it remains, lets the
        next attempt be made. The six reads are made one after the other. */
    method DecideRetry(i: Index, decision: Option<Decision>) returns (o: Outcome<Code>)
      requires host.Inv() && host.View().ddl.marker && i == host.View().ddl.done < |host.terms.pending|
      requires RefusedNow(host.View(), i)
      requires decision == host.decision
      modifies host`course, host`journal, host`written, host`world
      ensures Told(o, host.journal)
      ensures host.Inv() && Later(old(host.View()), host.View()) && host.View().ddl.done == old(host.View()).ddl.done
      ensures host.View().stages == old(host.View()).stages && host.View().ddl.marker
      ensures o.Pass? ==> !RefusedNow(host.View(), i) && decision == Some(RetryMigration(i))
                          && Attempt(host.View(), i) == Attempt(old(host.View()), i) + 1
    {
      hide SiteInv, ViewOf, Later, Moves, CleanRetry, Host.Inv, RetrySeen;
      ghost var v := host.View();
      LaterSame(v);
      Inactive(i);
      RefusedIsPlain(i);
      var last := host.View().ddl.refused[i];
      if decision != Some(RetryMigration(i)) || !Retriable(last.code) {
        o := RefuseMigration(i, last.code);
        OnlyJobsMeans(v, host.View());
        return;
      }
      o := NothingRemains(i);
      QuietlyMeans(v, host.View());
      if !o.Pass? { return; }
      o := host.Write(Decided(RetryMigration(i)));
    }

    /** A read while the refused attempt is the last: with no job left to write, the database stands still. */
    method AskStill(i: Index, a: Aspect) returns (o: Outcome<Code>)
      requires host.Inv() && i == host.View().ddl.done && RefusedNow(host.View(), i)
      modifies host`course, host`journal, host`written, host`world
      ensures Told(o, host.journal)
      ensures host.Inv() && Quietly(old(host.View()), host.View())
      ensures o.Pass? ==> Read(old(host.View()), host.View(), old(host.course), host.course)
      ensures o.Pass? ==> Shows(host.world, a) && Seen(host.course, a)
      ensures o.Pass? && host.terms.kept && host.terms.soleWriter ==>
                host.world.db == old(host.world).db && !MigrationRunning(host.world)
    {
      hide SiteInv, ViewOf, RefusedNow, Seen, Extends, Standing, Shows, Host.Inv;
      Inactive(i);
      :- Ask(a, Code.RetryPrecondition);
      Inactive(i);
      return Pass;
    }

    method NothingRemains(i: Index) returns (o: Outcome<Code>)
      requires host.Inv() && host.View().ddl.marker && i == host.View().ddl.done < |host.terms.pending|
      requires RefusedNow(host.View(), i)
      modifies host`course, host`journal, host`written, host`world
      ensures Told(o, host.journal)
      ensures host.Inv() && Quietly(old(host.View()), host.View())
      ensures o.Pass? ==> host.View() == old(host.View())
      ensures o.Pass? && host.terms.kept && host.terms.soleWriter ==> CleanRetry(host.terms, host.world, i)
      ensures o.Pass? ==> RetrySeen(host.terms, host.course, i)
    {
      hide SiteInv, ViewOf, MigrationRunning, RefusedNow, Seen, Standing, Host.Inv, Shows, CleanRetry;
      :- AskStill(i, NoInvalid);
      ghost var w1 := host.world;
      :- AskStill(i, NoIndexes(host.terms.pending[i].indexes));
      ghost var w2 := host.world;
      :- AskStill(i, Absent(i));
      ghost var w3 := host.world;
      :- AskStill(i, NoBuilds);
      :- AskStill(i, NoSessions);
      :- AskStill(i, NoMigrationJob);
      if host.terms.kept && host.terms.soleWriter {
        CleanStill(host.terms, w1, w2, w3, host.world, i);
      }
      return Pass;
    }

    /** What is asked before the job of an attempt is created. */
    method BeforeFirstJob(i: Index) returns (o: Outcome<Code>)
      requires host.Inv() && host.View().ddl.marker && i == host.View().ddl.done
      requires host.terms.kept ==> !Active(host.world, MigrationJob(i, Attempt(host.View(), i)))
      requires !RefusedNow(host.View(), i)
      modifies host`course, host`journal, host`written, host`world
      ensures Told(o, host.journal)
      ensures host.Inv() && OnlyJobs(old(host.View()), host.View())
      ensures o.Pass? ==> host.View().ddl.refused == old(host.View()).ddl.refused
      ensures o.Pass? ==> MigrationJob(i, Attempt(host.View(), i)) in host.View().ddl.begun
    {
      hide SiteInv, ViewOf, Later, Moves, Seen, Shows, Standing, Extends, Host.Inv;
      ghost var w := host.world;
      var view: World;
      view :- host.Observe();
      JobMoves(host.terms, w, view, MigrationJob(i, Attempt(host.View(), i)));
      if i in view.db.ledger {
        SeenPresent(i);
        o := RefuseMigration(i, LedgerAhead);
        return;
      }
      SeenAbsent(i);
      o := BeginAttempt(i);
    }

    method BeginAttempt(i: Index) returns (o: Outcome<Code>)
      requires host.Inv() && host.View().ddl.marker && i == host.View().ddl.done && Seen(host.course, Absent(i))
      requires !RefusedNow(host.View(), i)
      modifies host`course, host`journal, host`written, host`world
      ensures Told(o, host.journal)
      ensures host.Inv() && OnlyJobs(old(host.View()), host.View())
      ensures o.Pass? ==> host.View().ddl.refused == old(host.View()).ddl.refused
      ensures o.Pass? ==> MigrationJob(i, Attempt(host.View(), i)) in host.View().ddl.begun
    {
      hide SiteInv, ViewOf, Later, Moves, Seen, Shows, Standing, Host.Inv;
      var idle;
      idle :- NothingRuns();
      if !idle {
        o := host.Wait(SessionActive);
        return;
      }
      :- Ask(Scoped, Code.Scope);
      o := host.Write(MigrationStarted(i, Attempt(host.View(), i)));
    }

    /** No session of a migration, and no migration job. */
    method NothingRuns() returns (o: Outcome<Code>, idle: bool)
      requires host.Inv()
      modifies host`course, host`world
      ensures Told(o, host.journal)
      ensures host.Inv() && Extends(old(host.course), host.course)
      ensures o.Pass? && !idle ==> host.world.sessions != {} || MigrationRunning(host.world)
      ensures o.Pass? && idle ==> Seen(host.course, NoSessions) && Seen(host.course, NoMigrationJob)
    {
      hide SiteInv, ViewOf, Moves, Seen, Standing, MigrationRunning, Host.Inv;
      idle := false;
      var view;
      o, view := host.Observe();
      if !o.Pass? || view.sessions != {} { return; }
      StandsSeen(NoSessions);
      o, view := host.Observe();
      if !o.Pass? || MigrationRunning(view) { return; }
      NoJobRuns();
      idle := true;
    }

    /** The outcome of an attempt whose job has ended: a receipt for exit zero with the ledger row, and a sticky
        refusal for anything else. */
    method Judge(i: Index, exit: Option<int>) returns (o: Outcome<Code>)
      requires host.Inv() && host.View().ddl.marker && i == host.View().ddl.done < |host.terms.pending|
      requires MigrationJob(i, Attempt(host.View(), i)) in host.View().ddl.jobs
      requires host.terms.kept ==> Ended(host.world, MigrationJob(i, Attempt(host.View(), i)), exit)
      requires !RefusedNow(host.View(), i)
      modifies host`course, host`journal, host`written, host`world
      ensures Told(o, host.journal)
      ensures host.Inv() && Later(old(host.View()), host.View()) && host.View().stages == old(host.View()).stages
      ensures o.Pass? ==> host.View().ddl.done == i + 1 && exit == Some(0) && i in host.world.db.ledger
    {
      hide SiteInv, ViewOf, Moves, Seen, Standing, Shows, Later, Host.Inv, Extends;
      ghost var v := host.View();
      LaterSame(v);
      var name := MigrationJob(i, Attempt(host.View(), i));
      var active;
      o, active := StillActive(name, exit);
      QuietlyMeans(v, host.View());
      if !o.Pass? { return; }
      if active {
        o := host.Wait(SessionActive);
        QuietlyMeans(v, host.View());
        return;
      }
      ghost var w, course := host.world, host.course;
      var view;
      o, view := host.Observe();
      if !o.Pass? { return; }
      JobMoves(host.terms, w, view, name);
      ExtendsSeen(course, host.course, NoSession(name));
      ExtendsSeen(course, host.course, NoBuilds);
      if i !in view.db.ledger {
        SeenAbsent(i);
        o := JudgeAbsent(i, exit);
        OnlyJobsMeans(v, host.View());
        return;
      }
      SeenPresent(i);
      if exit != Some(0) {
        o := RefuseMigration(i, LedgerWithoutSuccess);
        OnlyJobsMeans(v, host.View());
        return;
      }
      o := ReceiptMigration(i);
    }

    /** The receipt of the next migration. */
    method ReceiptMigration(i: Index) returns (o: Outcome<Code>)
      requires host.Inv() && host.View().ddl.marker && i == host.View().ddl.done < |host.terms.pending|
      requires MigrationJob(i, Attempt(host.View(), i)) in host.View().ddl.jobs && i in host.world.db.ledger
      requires host.terms.kept ==> Succeeded(host.world, MigrationJob(i, Attempt(host.View(), i)))
      requires Seen(host.course, NoSession(MigrationJob(i, Attempt(host.View(), i)))) && Seen(host.course, NoBuilds)
      requires !RefusedNow(host.View(), i)
      modifies host`course, host`journal, host`written
      ensures Told(o, host.journal)
      ensures host.Inv() && Later(old(host.View()), host.View()) && host.View().stages == old(host.View()).stages
      ensures o.Pass? ==> host.View().ddl.done == i + 1
    {
      hide SiteInv, ViewOf, Seen, Later, Host.Inv;
      o := host.Write(MigrationDone(i));
    }

    lemma SeenAbsent(i: Index)
      requires host.Inv() && i !in host.world.db.ledger
      ensures Seen(host.course, Absent(i))
    {
      StandsSeen(Absent(i));
    }

    lemma SeenPresent(i: Index)
      requires host.Inv() && i in host.world.db.ledger
      ensures Seen(host.course, Present(i))
    {
      StandsSeen(Present(i));
    }

    /** Whether a session or an index build of an ended job is still seen. */
    method StillActive(n: JobName, exit: Option<int>) returns (o: Outcome<Code>, active: bool)
      requires host.Inv() && (host.terms.kept ==> Ended(host.world, n, exit))
      modifies host`course, host`world
      ensures Told(o, host.journal)
      ensures host.Inv() && Extends(old(host.course), host.course)
      ensures o.Pass? && active ==> host.world.sessions != {} || host.world.builds
      ensures o.Pass? && !active ==> Seen(host.course, NoSession(n)) && Seen(host.course, NoBuilds)
      ensures host.terms.kept ==> Ended(host.world, n, exit)
    {
      hide SiteInv, ViewOf, Moves, Seen, Standing, Host.Inv;
      active := true;
      ghost var w := host.world;
      var view;
      o, view := host.Observe();
      JobMoves(host.terms, w, view, n);
      if !o.Pass? || n in view.sessions { return; }
      StandsSeen(NoSession(n));
      w := view;
      o, view := host.Observe();
      JobMoves(host.terms, w, view, n);
      if !o.Pass? || view.builds { return; }
      StandsSeen(NoBuilds);
      active := false;
    }

    /** Why a migration that ended is not in the ledger. */
    method JudgeAbsent(i: Index, exit: Option<int>) returns (o: Outcome<Code>)
      requires host.Inv() && host.View().ddl.marker && i == host.View().ddl.done < |host.terms.pending|
      requires host.terms.kept ==> Ended(host.world, MigrationJob(i, Attempt(host.View(), i)), exit)
      requires Seen(host.course, Absent(i))
      modifies host`course, host`journal, host`written, host`world
      ensures Told(o, host.journal)
      ensures o.Refused? && o.code !in {PortFailed, JournalWrite} ==>
                if host.terms.pending[i].concurrent
                then o.code in {ConcurrentIndexInvalid, ConcurrentIndexPresent, ConcurrentFailed}
                else o.code == if exit == Some(0) then ExitZeroNoLedger else MigrationFailed
      ensures host.Inv() && !o.Pass? && OnlyJobs(old(host.View()), host.View())
    {
      hide SiteInv, ViewOf, Seen, Standing, Later, OnlyJobs, Host.Inv;
      if host.terms.pending[i].concurrent {
        o := JudgeConcurrent(i, exit);
      } else if exit == Some(0) {
        o := RefuseMigration(i, ExitZeroNoLedger);
      } else {
        o := RefuseMigration(i, MigrationFailed);
      }
    }

    method JudgeConcurrent(i: Index, exit: Option<int>) returns (o: Outcome<Code>)
      requires host.Inv() && host.View().ddl.marker && i == host.View().ddl.done < |host.terms.pending|
      requires host.terms.kept ==> Ended(host.world, MigrationJob(i, Attempt(host.View(), i)), exit)
      requires Seen(host.course, Absent(i)) && host.terms.pending[i].concurrent
      modifies host`course, host`journal, host`written, host`world
      ensures Told(o, host.journal)
      ensures o.Refused? ==> o.code in {ConcurrentIndexInvalid, ConcurrentIndexPresent, ConcurrentFailed, PortFailed,
                                        JournalWrite}
      ensures host.Inv() && !o.Pass? && OnlyJobs(old(host.View()), host.View())
    {
      hide SiteInv, ViewOf, Moves, Seen, Standing, Later, Extends, Shows, RefusalShown, OnlyJobs, Host.Inv;
      ghost var v := host.View();
      OnlyJobsSame(v);
      var m := host.terms.pending[i];
      ghost var name := MigrationJob(i, Attempt(host.View(), i));
      ghost var w, course := host.world, host.course;
      var view: World;
      view :- host.Observe();
      JobMoves(host.terms, w, view, name);
      ExtendsSeen(course, host.course, Absent(i));
      if view.db.invalid != {} {
        ConcurrentRefusal(i, ConcurrentIndexInvalid);
        o := RefuseMigration(i, ConcurrentIndexInvalid);
        return;
      }
      InvalidSeen();
      w, course := view, host.course;
      view :- host.Observe();
      JobMoves(host.terms, w, view, name);
      ExtendsSeen(course, host.course, Absent(i));
      ExtendsSeen(course, host.course, NoInvalid);
      var code := if view.db.indexes * m.indexes != {} then ConcurrentIndexPresent else ConcurrentFailed;
      ConcurrentRefusal(i, code);
      o := RefuseMigration(i, code);
    }

    lemma InvalidSeen()
      requires host.Inv() && host.world.db.invalid == {}
      ensures Seen(host.course, NoInvalid)
    {
      StandsSeen(NoInvalid);
    }

    /** The refusals of a concurrent migration, each for what the last read showed. */
    lemma ConcurrentRefusal(i: Index, code: Code)
      requires host.Inv() && i < |host.terms.pending| && host.terms.pending[i].concurrent
      requires Seen(host.course, Absent(i))
      requires code in {ConcurrentIndexInvalid, ConcurrentIndexPresent, ConcurrentFailed}
      requires code == ConcurrentIndexInvalid ==> host.world.db.invalid != {}
      requires code == ConcurrentIndexPresent ==> host.world.db.indexes * host.terms.pending[i].indexes != {}
      requires code == ConcurrentFailed ==>
                 host.world.db.indexes * host.terms.pending[i].indexes == {} && Seen(host.course, NoInvalid)
      ensures RefusalShown(host.terms, host.View(), host.world, host.course, i, code)
    {
      hide SiteInv, ViewOf, Seen, Standing, Shows, Host.Inv;
      if code == ConcurrentIndexInvalid { SomeInvalidSeen(); }
      if code == ConcurrentIndexPresent { IndexesSeen(host.terms.pending[i].indexes); }
      if code == ConcurrentFailed { IndexesSeen(host.terms.pending[i].indexes); }
    }

    lemma SomeInvalidSeen()
      requires host.Inv() && host.world.db.invalid != {}
      ensures Seen(host.course, SomeInvalid)
    {
      StandsSeen(SomeInvalid);
    }

    lemma IndexesSeen(x: set<nat>)
      requires host.Inv()
      ensures Seen(host.course, if host.world.db.indexes * x != {} then SomeIndex(x) else NoIndexes(x))
    {
      StandsSeen(if host.world.db.indexes * x != {} then SomeIndex(x) else NoIndexes(x));
    }

    /** One attempt of one migration. */
    method MigrationStep(i: Index, decision: Option<Decision>, polls: nat) returns (o: Outcome<Code>)
      requires host.checked && host.Inv() && host.View().ddl.marker && i == host.View().ddl.done < |host.terms.pending|
      requires decision == host.decision
      modifies host`course, host`journal, host`written, host`world, host`trace
      ensures Told(o, host.journal)
      ensures host.Inv() && Later(old(host.View()), host.View()) && host.View().stages == old(host.View()).stages
      ensures o.Pass? ==> host.View().ddl.done == i + 1
      ensures RefusedNow(old(host.View()), i) && decision != Some(RetryMigration(i)) ==> !o.Pass?
    {
      hide SiteInv, ViewOf, Moves, Later, RefusedNow, Attempt, OnlyJobs, Host.Inv;
      ghost var v := host.View();
      LaterSame(v);
      if RefusedNow(host.View(), i) {
        o := DecideRetry(i, decision);
        if !o.Pass? { return; }
      }
      ghost var v1 := host.View();
      o := AttemptMigration(i, polls);
      LaterTwice(v, v1, host.View());
    }

    /** The attempt is begun when no container of its job was found, and none was recorded. */
    method Prepare(i: Index) returns (o: Outcome<Code>)
      requires host.Inv() && host.View().ddl.marker && i == host.View().ddl.done < |host.terms.pending|
      requires !RefusedNow(host.View(), i)
      modifies host`course, host`journal, host`written, host`world
      ensures Told(o, host.journal)
      ensures host.Inv() && OnlyJobs(old(host.View()), host.View())
      ensures o.Pass? ==> host.View().ddl.refused == old(host.View()).ddl.refused
      ensures o.Pass? && host.terms.kept ==>
                var name := MigrationJob(i, Attempt(host.View(), i));
                name in host.world.jobs || name in host.View().ddl.jobs || name in host.View().ddl.begun
    {
      hide SiteInv, ViewOf, Moves, Later, RefusedNow, Host.Inv, Seen, Shows, Extends, Standing;
      var name := MigrationJob(i, Attempt(host.View(), i));
      var view: World;
      view :- host.Observe();
      if name in view.jobs || name in host.View().ddl.jobs { return Pass; }
      o := BeforeFirstJob(i);
    }

    method AttemptMigration(i: Index, polls: nat) returns (o: Outcome<Code>)
      requires host.checked && host.Inv() && host.View().ddl.marker && i == host.View().ddl.done < |host.terms.pending|
      requires !RefusedNow(host.View(), i)
      modifies host`course, host`journal, host`written, host`world, host`trace
      ensures Told(o, host.journal)
      ensures host.Inv() && Later(old(host.View()), host.View()) && host.View().stages == old(host.View()).stages
      ensures o.Pass? ==> host.View().ddl.done == i + 1
    {
      hide SiteInv, ViewOf, Moves, Later, OnlyJobs, RefusedNow, Host.Inv, Seen, Shows, Extends, Standing;
      ghost var v := host.View();
      LaterSame(v);
      var name := MigrationJob(i, Attempt(host.View(), i));
      o := Prepare(i);
      OnlyJobsMeans(v, host.View());
      if !o.Pass? { return; }
      OnlyJobsAllow(v, host.View(), name);
      ghost var v1 := host.View();
      var exit;
      o, exit := Job(name, polls);
      OnlyJobsMeans(v1, host.View());
      LaterTwice(v, v1, host.View());
      if !o.Pass? { return; }
      ghost var v2 := host.View();
      StillUnrefused(v, v1, v2, i);
      o := Judge(i, exit);
      LaterTwice(v, v2, host.View());
    }

    method Migrate(decision: Option<Decision>, polls: nat) returns (o: Outcome<Code>)
      requires host.checked && host.Inv() && !host.View().legacy.resuming && Preflighted in host.View().stages
      requires decision == host.decision
      modifies host`course, host`journal, host`written, host`world, host`trace
      ensures Told(o, host.journal)
      ensures host.Inv() && Later(old(host.View()), host.View())
      ensures o.Pass? ==> Migrated in host.View().stages
      ensures o.Pass? && Migrated !in old(host.View()).stages ==>
                host.world.db.ledger == host.View().legacy.ledger + Positions(|host.terms.pending|)
    {
      hide SiteInv, ViewOf, Moves, Host.Inv, Seen, Extends;
      if Migrated in host.View().stages { return Pass; }
      :- Mark();
      DoneBounded();
      var n := |host.terms.pending|;
      while host.View().ddl.done < n
        invariant host.Inv() && Later(old(host.View()), host.View()) && host.View().ddl.marker
        invariant host.View().ddl.done <= n
        decreases n - host.View().ddl.done
      {
        :- MigrationStep(host.View().ddl.done, decision, polls);
      }
      o := ConfirmMigrated();
    }

    /** The ledger is the baseline and the whole manifest. */
    method ConfirmMigrated() returns (o: Outcome<Code>)
      requires host.Inv() && !host.View().legacy.resuming && Preflighted in host.View().stages
      requires host.View().ddl.marker && host.View().ddl.done == |host.terms.pending|
      modifies host`course, host`journal, host`written, host`world
      ensures Told(o, host.journal)
      ensures host.Inv() && Later(old(host.View()), host.View())
      ensures o.Pass? ==> Migrated in host.View().stages
      ensures o.Pass? ==> host.world.db.ledger == host.View().legacy.ledger + Positions(|host.terms.pending|)
    {
      hide SiteInv, ViewOf, Moves, Seen, Extends, Standing, Host.Inv;
      :- Ask(LedgerIs(host.View().legacy.ledger + Positions(|host.terms.pending|)), LedgerNotManifest);
      o := Reach(Migrated);
    }

    method VerifySchema() returns (o: Outcome<Code>)
      requires host.Inv() && !host.View().legacy.resuming && Migrated in host.View().stages
      modifies host`course, host`journal, host`written, host`world
      ensures Told(o, host.journal)
      ensures host.Inv() && Later(old(host.View()), host.View())
      ensures o.Pass? ==> SchemaVerified in host.View().stages && host.world.schema
    {
      hide SiteInv, ViewOf, Moves, Host.Inv;
      MigratedIsMarked();
      :- Ask(SchemaOk, SchemaRefused);
      o := Reach(SchemaVerified);
    }

    // -- the candidate ------------------------------------------------------------------------------------

    /** All four run the execution started in this epoch. */
    method VerifyRunning() returns (o: Outcome<Code>)
      requires host.Inv()
      modifies host`course, host`journal, host`written, host`world
      ensures Told(o, host.journal) && Unwaiting(o)
      ensures host.Inv() && Quietly(old(host.View()), host.View())
      ensures o.Pass? ==> Read(old(host.View()), host.View(), old(host.course), host.course)
      ensures o.Pass? ==> RunningSeen(host.View(), host.course)
    {
      hide SiteInv, ViewOf, Moves, Seen, Standing, Shows, Host.Inv;
      ReadNothing(host.View(), host.course);
      var v := host.View();
      for i := 0 to 4
        invariant host.Inv() && Read(v, host.View(), old(host.course), host.course)
        invariant forall q: Role :: ContainRank(q) < i ==>
                    q in v.candidate.starts && Seen(host.course, RunsOn(q, v.candidate.starts[q]))
      {
        ghost var course := host.course;
        if ROLES[i] !in v.candidate.starts {
          o := host.Refuse(CandidateNotRunning);
          return;
        }
        :- Ask(RunsOn(ROLES[i], v.candidate.starts[ROLES[i]]), CandidateNotRunning);
        ReadOn(v, host.View(), old(host.course), course, host.course);
      }
      return Pass;
    }

    /** After a containment only a human decision lets the candidate be started again. */
    method DecideCandidate(decision: Option<Decision>) returns (o: Outcome<Code>)
      requires host.Inv() && SchemaVerified in host.View().stages && !host.View().candidate.promoted
      requires decision == host.decision
      modifies host`course, host`journal, host`written
      ensures Told(o, host.journal)
      ensures host.Inv() && OnlyCandidate(old(host.View()), host.View())
      ensures host.View().candidate == old(host.View()).candidate.(retried := host.View().candidate.retried)
      ensures o.Pass? ==> (host.View().candidate.restarted ==> host.View().candidate.retried)
      ensures (old(host.View()).candidate.restarted && !old(host.View()).candidate.retried
               && decision != Some(RetryCandidate)) ==> !o.Pass?
    {
      hide SiteInv, ViewOf, Host.Inv;
      MigratedIsMarked();
      if !host.View().candidate.restarted || host.View().candidate.retried { return Pass; }
      if decision != Some(RetryCandidate) {
        o := host.Refuse(CandidateDecisionRequired);
        return;
      }
      o := host.Write(Decided(RetryCandidate));
    }

    method IntendCreate() returns (o: Outcome<Code>)
      requires host.checked && host.Inv() && SchemaVerified in host.View().stages && host.View().ddl.marker
      requires !host.View().candidate.created
      modifies host`course, host`journal, host`written, host`world, host`trace, host`toCandidate
      ensures Told(o, host.journal) && Unwaiting(o)
      ensures host.Inv() && OnlyCandidate(old(host.View()), host.View())
      ensures host.View().candidate == old(host.View()).candidate
      ensures o.Pass? ==> JustSent(host.trace, CreateCandidate)
    {
      hide SiteInv, ViewOf, Later, Host.Inv, StageAllowed, LegacyIntentAllowed, LegacyDoneAllowed, DecisionAllowed,
        JobAllowed, Precondition, StageShown, RevalidSeen, UntouchedSeen, EvidenceSeen, RefusalShown, RetrySeen,
        IdleSeen, PreDdlSeen, SnapshotSeen;
      :- host.Write(CandidateCreateIntended);
      o := host.EffectOnCandidate(CreateCandidate);
    }

    method CreateOnce() returns (o: Outcome<Code>)
      requires host.checked && host.Inv() && SchemaVerified in host.View().stages && !host.View().candidate.promoted
      modifies host`course, host`journal, host`written, host`world, host`trace, host`toCandidate
      ensures Told(o, host.journal) && Unwaiting(o)
      ensures host.Inv() && OnlyCandidate(old(host.View()), host.View())
      ensures host.View().candidate == old(host.View()).candidate.(created := host.View().candidate.created)
      ensures o.Pass? ==> host.View().candidate.created
      ensures o.Pass? && !old(host.View()).candidate.created ==> JustSent(host.trace, CreateCandidate)
    {
      hide SiteInv, ViewOf, Moves, Later, Host.Inv, Seen, Extends, Shows;
      MigratedIsMarked();
      if host.View().candidate.created { return Pass; }
      :- IntendCreate();
      o := ConfirmCreated();
    }

    /** All four services must be there. */
    method ConfirmCreated() returns (o: Outcome<Code>)
      requires host.Inv() && SchemaVerified in host.View().stages && host.View().ddl.marker
      requires !host.View().candidate.created
      modifies host`course, host`journal, host`written, host`world
      ensures Told(o, host.journal) && Unwaiting(o)
      ensures host.Inv() && OnlyCandidate(old(host.View()), host.View())
      ensures host.View().candidate == old(host.View()).candidate.(created := host.View().candidate.created)
      ensures o.Pass? ==> host.View().candidate.created
    {
      hide SiteInv, ViewOf, Later, Host.Inv, Seen, Extends, Shows;
      :- Ask(WholeProject, CandidateServices);
      o := RecordCreated();
    }

    method RecordCreated() returns (o: Outcome<Code>)
      requires host.Inv() && SchemaVerified in host.View().stages && host.View().ddl.marker
      requires !host.View().candidate.created && Seen(host.course, WholeProject)
      modifies host`course, host`journal, host`written
      ensures Told(o, host.journal) && Unwaiting(o)
      ensures host.Inv() && OnlyCandidate(old(host.View()), host.View())
      ensures host.View().candidate == old(host.View()).candidate.(created := host.View().candidate.created)
      ensures o.Pass? ==> host.View().candidate.created
    {
      hide SiteInv, ViewOf, Later, Host.Inv, Seen, Extends, Shows, Record;
      RecordsCandidate(host.View(), CandidateCreated);
      o := host.Write(CandidateCreated);
    }

    method ValidateCreated() returns (o: Outcome<Code>)
      requires host.Inv()
      modifies host`course, host`journal, host`written, host`world
      ensures Told(o, host.journal) && Unwaiting(o)
      ensures host.Inv() && Quietly(old(host.View()), host.View())
      ensures o.Pass? ==> Read(old(host.View()), host.View(), old(host.course), host.course)
      ensures o.Pass? ==> CreatedSeen(host.View(), host.course)
    {
      hide SiteInv, ViewOf, Moves, Seen, Standing, Shows, Host.Inv;
      ReadNothing(host.View(), host.course);
      var v := host.View();
      for i := 0 to 4
        invariant host.Inv() && Read(v, host.View(), old(host.course), host.course)
        invariant forall q: Role :: ContainRank(q) < i ==> Seen(host.course, CreatedAs(v, q))
      {
        ghost var course := host.course;
        :- Ask(CreatedAs(v, ROLES[i]), CandidateIdentity);
        ReadOn(v, host.View(), old(host.course), course, host.course);
      }
      return Pass;
    }

    method IntendAndStart(r: Role) returns (o: Outcome<Code>)
      requires host.checked && host.Inv() && MayStart(host.View()) && r !in host.View().candidate.starts
      requires !host.world.candidate.At(r).running
      modifies host`course, host`journal, host`written, host`world, host`trace, host`toCandidate
      ensures Told(o, host.journal) && Unwaiting(o)
      ensures host.Inv() && OnlyCandidate(old(host.View()), host.View())
      ensures host.View().candidate == old(host.View()).candidate.(intended := host.View().candidate.intended)
      ensures o.Pass? ==> JustSent(host.trace, StartCandidate(r))
    {
      hide SiteInv, ViewOf, Later, Host.Inv, Record, StageAllowed, LegacyIntentAllowed, LegacyDoneAllowed,
        DecisionAllowed, JobAllowed, Precondition, StageShown, RevalidSeen, UntouchedSeen, EvidenceSeen, RefusalShown,
        RetrySeen, IdleSeen, PreDdlSeen, SnapshotSeen, Lawful, Intended;
      ghost var v := host.View();
      RecordsCandidate(v, StartIntended(r));
      :- host.Write(StartIntended(r));
      StartIsLawful(v, host.View(), host.world, host.journal, r);
      o := host.EffectOnCandidate(StartCandidate(r));
    }

    method StartRole(r: Role) returns (o: Outcome<Code>)
      requires host.checked && host.Inv() && MayStart(host.View())
      modifies host`course, host`journal, host`written, host`world, host`trace, host`toCandidate
      ensures Told(o, host.journal) && Unwaiting(o)
      ensures host.Inv() && OnlyCandidate(old(host.View()), host.View())
      ensures host.View().candidate == old(host.View()).candidate.(intended := host.View().candidate.intended,
                                                                   starts := host.View().candidate.starts)
      ensures old(host.View()).candidate.starts.Keys <= host.View().candidate.starts.Keys
      ensures o.Pass? ==> r in host.View().candidate.starts
    {
      hide SiteInv, ViewOf, Moves, Host.Inv, Seen, Shows, Extends, Standing;
      if r in host.View().candidate.starts { return Pass; }
      var view: World;
      view :- host.Observe();
      if !view.candidate.At(r).running {
        :- IntendAndStart(r);
      } else {
        RunsSeen(r);
      }
      o := ConfirmStart(r);
    }

    method ConfirmStart(r: Role) returns (o: Outcome<Code>)
      requires host.Inv() && MayStart(host.View()) && r !in host.View().candidate.starts
      requires Seen(host.course, CandidateRuns(r)) || JustSent(host.trace, StartCandidate(r))
      modifies host`course, host`journal, host`written, host`world
      ensures Told(o, host.journal) && Unwaiting(o)
      ensures host.Inv() && OnlyCandidate(old(host.View()), host.View())
      ensures host.View().candidate == old(host.View()).candidate.(starts := host.View().candidate.starts)
      ensures old(host.View()).candidate.starts.Keys <= host.View().candidate.starts.Keys
      ensures o.Pass? ==> r in host.View().candidate.starts
    {
      hide SiteInv, ViewOf, Moves, MayStart, Seen, Shows, Extends, Standing, Host.Inv;
      ghost var course := host.course;
      var view: World;
      view :- host.Observe();
      StillRuns(course, host.course, r);
      o := RecordStart(r, view.candidate.At(r).started);
    }

    lemma RunsSeen(r: Role)
      requires host.Inv() && host.world.candidate.At(r).running
      ensures Seen(host.course, CandidateRuns(r))
    {
      StandsSeen(CandidateRuns(r));
    }

    method RecordStart(r: Role, started: nat) returns (o: Outcome<Code>)
      requires host.Inv() && MayStart(host.View()) && r !in host.View().candidate.starts
      requires host.world.candidate.At(r).started == started
      requires Seen(host.course, CandidateRuns(r)) || JustSent(host.trace, StartCandidate(r))
      modifies host`course, host`journal, host`written
      ensures Told(o, host.journal) && Unwaiting(o)
      ensures host.Inv() && OnlyCandidate(old(host.View()), host.View())
      ensures host.View().candidate == old(host.View()).candidate.(starts := host.View().candidate.starts)
      ensures old(host.View()).candidate.starts.Keys <= host.View().candidate.starts.Keys
      ensures o.Pass? ==> r in host.View().candidate.starts && host.View().candidate.starts[r] == started
    {
      hide SiteInv, ViewOf, Later, Host.Inv, StageAllowed, LegacyIntentAllowed, LegacyDoneAllowed, DecisionAllowed,
        JobAllowed, Precondition, StageShown, RevalidSeen, UntouchedSeen, EvidenceSeen, RefusalShown, RetrySeen,
        IdleSeen, PreDdlSeen, SnapshotSeen;
      o := host.Write(CandidateStarted(r, started));
    }

    /** The roles are started in their order, after the identity of all four was read. */
    method StartRoles() returns (o: Outcome<Code>)
      requires host.checked && host.Inv() && MayStart(host.View()) && CreatedSeen(host.View(), host.course)
      modifies host`course, host`journal, host`written, host`world, host`trace, host`toCandidate
      ensures Told(o, host.journal) && Unwaiting(o)
      ensures host.Inv() && OnlyCandidate(old(host.View()), host.View())
      ensures host.View().candidate == old(host.View()).candidate.(intended := host.View().candidate.intended,
                                                                   starts := host.View().candidate.starts)
      ensures o.Pass? ==> AllStarted(host.View())
    {
      hide SiteInv, ViewOf, Host.Inv;
      for i := 0 to 4
        invariant host.Inv() && OnlyCandidate(old(host.View()), host.View())
        invariant host.View().candidate == old(host.View()).candidate.(intended := host.View().candidate.intended,
                                                                       starts := host.View().candidate.starts)
        invariant forall q: Role :: StartRank(q) < i ==> q in host.View().candidate.starts
      {
        :- StartRole(START_ORDER[i]);
      }
      return Pass;
    }

    /** The decision a containment calls for, the creation, the identity of what was created. */
    method PrepareCandidate(decision: Option<Decision>) returns (o: Outcome<Code>)
      requires host.checked && host.Inv() && SchemaVerified in host.View().stages && !host.View().candidate.ready
      requires !host.View().candidate.promoted
      requires decision == host.decision
      modifies host`course, host`journal, host`written, host`world, host`trace, host`toCandidate
      ensures Told(o, host.journal)
      ensures o.Refused? && !Plain(o.code) ==> host.toCandidate == old(host.toCandidate)
      ensures host.Inv() && OnlyCandidate(old(host.View()), host.View()) && !host.View().candidate.ready
      ensures o.Pass? ==> MayStart(host.View()) && CreatedSeen(host.View(), host.course)
    {
      hide SiteInv, ViewOf, Moves, MayStart, AllStarted, Extends, CreatedSeen, Host.Inv;
      :- DecideCandidate(decision);
      :- CreateOnce();
      :- ValidateCreated();
      NowMayStart();
      return Pass;
    }

    /** The candidate up to readiness, in the epoch of the last containment. */
    method Candidate(decision: Option<Decision>, polls: nat) returns (o: Outcome<Code>)
      requires host.checked && host.Inv() && SchemaVerified in host.View().stages
      requires decision == host.decision
      modifies host`course, host`journal, host`written, host`world, host`trace, host`toCandidate
      ensures Told(o, host.journal)
      ensures o.Refused? && !Plain(o.code) ==> host.toCandidate == old(host.toCandidate)
      ensures host.Inv() && Later(old(host.View()), host.View())
      ensures o.Pass? ==> host.View().candidate.ready
      ensures o.Pass? && old(host.View()).candidate.ready ==> RunningSeen(host.View(), host.course)
    {
      hide SiteInv, ViewOf, Moves, AllStarted, Later, RunningSeen, CreatedSeen, Extends, Host.Inv;
      ReadyIsMarked();
      ghost var v := host.View();
      QuietlyMeans(v, v);
      if host.View().candidate.ready {
        o := VerifyRunning();
        QuietlyMeans(v, host.View());
        return;
      }
      o := PrepareCandidate(decision);
      OnlyCandidateMeans(v, host.View());
      if !o.Pass? { return; }
      o := StartRoles();
      OnlyCandidateMeans(v, host.View());
      if !o.Pass? { return; }
      ghost var v1 := host.View();
      o := Prove(polls);
      LaterTwice(v, v1, host.View());
    }

    /** All four started, they are proved to run and to be ready. */
    method Prove(polls: nat) returns (o: Outcome<Code>)
      requires host.Inv() && MayStart(host.View()) && AllStarted(host.View()) && !host.View().candidate.ready
      modifies host`course, host`journal, host`written, host`world
      ensures Told(o, host.journal) && Unwaiting(o)
      ensures host.Inv() && Later(old(host.View()), host.View())
      ensures o.Pass? ==> host.View().candidate.ready
    {
      hide SiteInv, ViewOf, MayStart, AllStarted, Later, RunningSeen, Extends, Host.Inv;
      ghost var v := host.View();
      o := VerifyRunning();
      QuietlyMeans(v, host.View());
      if !o.Pass? { return; }
      o := Ready(polls);
    }

    /** Fresh readiness, expectations awaited for so long, scope; then the phase. */
    method Ready(polls: nat) returns (o: Outcome<Code>)
      requires host.Inv() && MayStart(host.View()) && AllStarted(host.View()) && !host.View().candidate.ready
      requires RunningSeen(host.View(), host.course)
      modifies host`course, host`journal, host`written, host`world
      ensures Told(o, host.journal) && Unwaiting(o)
      ensures host.Inv() && Later(old(host.View()), host.View())
      ensures o.Pass? ==> host.View().candidate.ready
    {
      hide SiteInv, ViewOf, MayStart, AllStarted, Seen, StageAllowed, StageShown, RunningSeen, Extends, Later,
        Host.Inv, Told, Unwaiting;
      ghost var v, course := host.View(), host.course;
      o := LookReady(polls);
      QuietlyMeans(v, host.View());
      if !o.Pass? { return; }
      ReadyShown(host.terms, v, host.world, course, host.course);
      o := Reach(CandidateReady);
    }

    method LookReady(polls: nat) returns (o: Outcome<Code>)
      requires host.Inv()
      modifies host`course, host`journal, host`written, host`world
      ensures Told(o, host.journal) && Unwaiting(o)
      ensures host.Inv() && Quietly(old(host.View()), host.View())
      ensures o.Pass? ==> Read(old(host.View()), host.View(), old(host.course), host.course)
      ensures o.Pass? ==> Seen(host.course, ReadyOk) && Seen(host.course, CandidateExpected)
      ensures o.Pass? ==> Seen(host.course, Scoped)
    {
      hide SiteInv, ViewOf, Moves, Seen, Shows, Standing, Host.Inv;
      :- Ask(ReadyOk, CandidateNotReady);
      :- AwaitExpected(polls);
      :- Ask(Scoped, Code.Scope);
      return Pass;
    }

    /** The expected effects on the candidate are awaited. */
    method AwaitExpected(polls: nat) returns (o: Outcome<Code>)
      requires host.Inv()
      modifies host`course, host`journal, host`written, host`world
      ensures Told(o, host.journal) && Unwaiting(o)
      ensures host.Inv() && Quietly(old(host.View()), host.View())
      ensures o.Pass? ==> Read(old(host.View()), host.View(), old(host.course), host.course)
      ensures o.Pass? ==> Seen(host.course, CandidateExpected)
    {
      hide SiteInv, ViewOf, Moves, Seen, Standing, Host.Inv, Extends;
      ReadNothing(host.View(), host.course);
      ghost var v := host.View();
      for k := 0 to polls + 1
        invariant host.Inv() && Read(v, host.View(), old(host.course), host.course)
      {
        var view: World;
        ghost var course := host.course;
        view :- host.Observe();
        ReadOn(v, host.View(), old(host.course), course, host.course);
        if view.candidateExpected {
          StandsSeen(CandidateExpected);
          return Pass;
        }
      }
      o := host.Refuse(ExpectationMismatch);
    }

    method IntendPolicy(r: Role) returns (o: Outcome<Code>)
      requires host.checked && host.Inv() && host.View().candidate.ready && !host.View().candidate.promoted
      requires host.View().ddl.marker && host.View().candidate.created && r !in host.View().candidate.policies
      modifies host`course, host`journal, host`written, host`world, host`trace, host`toCandidate
      ensures Told(o, host.journal) && Unwaiting(o)
      ensures host.Inv() && OnlyCandidate(old(host.View()), host.View())
      ensures host.View().candidate == old(host.View()).candidate
      ensures o.Pass? ==> JustSent(host.trace, CandidatePolicy(r, Always))
    {
      hide SiteInv, ViewOf, Later, Host.Inv, StageAllowed, LegacyIntentAllowed, LegacyDoneAllowed, DecisionAllowed,
        JobAllowed, Precondition, StageShown, RevalidSeen, UntouchedSeen, EvidenceSeen, RefusalShown, RetrySeen,
        IdleSeen, PreDdlSeen, SnapshotSeen;
      :- host.Write(PolicyIntended(r));
      o := host.EffectOnCandidate(CandidatePolicy(r, Always));
    }

    method RecordPolicy(r: Role) returns (o: Outcome<Code>)
      requires host.Inv() && host.View().candidate.ready && !host.View().candidate.promoted
      requires r !in host.View().candidate.policies && host.world.candidate.At(r).policy == Always
      requires JustSent(host.trace, CandidatePolicy(r, Always))
      modifies host`course, host`journal, host`written
      ensures Told(o, host.journal) && Unwaiting(o)
      ensures host.Inv() && OnlyCandidate(old(host.View()), host.View())
      ensures host.View().candidate == old(host.View()).candidate.(policies := host.View().candidate.policies)
      ensures old(host.View()).candidate.policies <= host.View().candidate.policies
      ensures o.Pass? ==> r in host.View().candidate.policies
    {
      hide SiteInv, ViewOf, Later, Host.Inv, StageAllowed, LegacyIntentAllowed, LegacyDoneAllowed, DecisionAllowed,
        JobAllowed, Precondition, StageShown, RevalidSeen, UntouchedSeen, EvidenceSeen, RefusalShown, RetrySeen,
        IdleSeen, PreDdlSeen, SnapshotSeen;
      o := host.Write(PolicyPersisted(r));
    }

    method PersistAlways(r: Role) returns (o: Outcome<Code>)
      requires host.checked && host.Inv() && host.View().candidate.ready && !host.View().candidate.promoted
      requires host.View().ddl.marker && host.View().candidate.created
      modifies host`course, host`journal, host`written, host`world, host`trace, host`toCandidate
      ensures Told(o, host.journal) && Unwaiting(o)
      ensures host.Inv() && OnlyCandidate(old(host.View()), host.View())
      ensures host.View().candidate == old(host.View()).candidate.(policies := host.View().candidate.policies)
      ensures old(host.View()).candidate.policies <= host.View().candidate.policies
      ensures o.Pass? ==> r in host.View().candidate.policies
    {
      hide SiteInv, ViewOf, Moves, Host.Inv, Seen, Shows, Extends, Standing;
      if r in host.View().candidate.policies { return Pass; }
      :- IntendPolicy(r);
      o := ConfirmPolicy(r);
    }

    /** The policy just sent must be read back. */
    method ConfirmPolicy(r: Role) returns (o: Outcome<Code>)
      requires host.Inv() && host.View().candidate.ready && !host.View().candidate.promoted
      requires r !in host.View().candidate.policies && JustSent(host.trace, CandidatePolicy(r, Always))
      modifies host`course, host`journal, host`written, host`world
      ensures Told(o, host.journal) && Unwaiting(o)
      ensures host.Inv() && OnlyCandidate(old(host.View()), host.View())
      ensures host.View().candidate == old(host.View()).candidate.(policies := host.View().candidate.policies)
      ensures old(host.View()).candidate.policies <= host.View().candidate.policies
      ensures o.Pass? ==> r in host.View().candidate.policies
    {
      hide SiteInv, ViewOf, Moves, Host.Inv, Seen, Shows, Extends, Standing;
      :- Ask(Restarts(r, Always), PolicyNotPersisted);
      PolicyShown(host.world, r, Always);
      o := RecordPolicy(r);
    }

    /** The restart policies, after running and readiness were proved once more. */
    method PersistAll() returns (o: Outcome<Code>)
      requires host.checked && host.Inv() && host.View().candidate.ready && !host.View().candidate.promoted
      requires RunningSeen(host.View(), host.course) && Seen(host.course, ReadyOk)
      requires host.View().ddl.marker && host.View().candidate.created
      modifies host`course, host`journal, host`written, host`world, host`trace, host`toCandidate
      ensures Told(o, host.journal) && Unwaiting(o)
      ensures host.Inv() && OnlyCandidate(old(host.View()), host.View())
      ensures host.View().candidate == old(host.View()).candidate.(policies := host.View().candidate.policies)
      ensures o.Pass? ==> AllPersisted(host.View())
    {
      hide SiteInv, ViewOf, Host.Inv;
      for i := 0 to 4
        invariant host.Inv() && OnlyCandidate(old(host.View()), host.View())
        invariant host.View().candidate == old(host.View()).candidate.(policies := host.View().candidate.policies)
        invariant forall q: Role :: ContainRank(q) < i ==> q in host.View().candidate.policies
      {
        :- PersistAlways(ROLES[i]);
      }
      return Pass;
    }

    /** Promotion: fresh identity and readiness, then the restart policies, then identity once more. */
    method Promote() returns (o: Outcome<Code>)
      requires host.checked && host.Inv() && host.View().candidate.ready
      modifies host`course, host`journal, host`written, host`world, host`trace, host`toCandidate
      ensures Told(o, host.journal) && Unwaiting(o)
      ensures host.Inv() && Later(old(host.View()), host.View())
      ensures o.Pass? ==> host.View().candidate.promoted
      ensures o.Pass? && old(host.View()).candidate.promoted ==>
                RunningSeen(host.View(), host.course) && forall r: Role :: Seen(host.course, Restarts(r, Always))
    {
      hide SiteInv, ViewOf, Moves, Seen, Standing, Shows, Host.Inv;
      ReadyIsMarked();
      :- VerifyRunning();
      if host.View().candidate.promoted {
        o := PoliciesStand();
        return;
      }
      o := PromoteReady();
    }

    method PromoteReady() returns (o: Outcome<Code>)
      requires host.checked && host.Inv() && host.View().candidate.ready && !host.View().candidate.promoted
      requires host.View().ddl.marker && host.View().candidate.created && RunningSeen(host.View(), host.course)
      modifies host`course, host`journal, host`written, host`world, host`trace, host`toCandidate
      ensures Told(o, host.journal) && Unwaiting(o)
      ensures host.Inv() && Later(old(host.View()), host.View())
      ensures o.Pass? ==> host.View().candidate.promoted
    {
      hide SiteInv, ViewOf, Moves, Seen, Standing, Shows, Host.Inv;
      :- Ask(ReadyOk, CandidateNotReady);
      :- PersistAll();
      :- VerifyRunning();
      o := Reach(Promoted);
    }

    method PoliciesStand() returns (o: Outcome<Code>)
      requires host.Inv()
      modifies host`course, host`journal, host`written, host`world
      ensures Told(o, host.journal) && Unwaiting(o)
      ensures host.Inv() && Quietly(old(host.View()), host.View())
      ensures o.Pass? ==> Read(old(host.View()), host.View(), old(host.course), host.course)
      ensures o.Pass? ==> forall r: Role :: Seen(host.course, Restarts(r, Always))
    {
      hide SiteInv, ViewOf, Moves, Seen, Standing, Shows, Host.Inv;
      ReadNothing(host.View(), host.course);
      ghost var v := host.View();
      for i := 0 to 4
        invariant host.Inv() && Read(v, host.View(), old(host.course), host.course)
        invariant forall q: Role :: ContainRank(q) < i ==> Seen(host.course, Restarts(q, Always))
      {
        ghost var course := host.course;
        :- Ask(Restarts(ROLES[i], Always), CandidateIdentity);
        ReadOn(v, host.View(), old(host.course), course, host.course);
      }
      return Pass;
    }

    method StopCandidate(r: Role) returns (o: Outcome<Code>)
      requires host.checked
      requires host.Inv() && host.View().ddl.marker && host.View().candidate.created && !host.View().candidate.promoted
      requires Intended(host.journal, CandidateSignal(r))
      modifies host`course, host`journal, host`written, host`world, host`trace, host`toCandidate
      ensures Told(o, host.journal) && ContainmentRefused(o)
      ensures host.Inv() && Quietly(old(host.View()), host.View())
      ensures o.Pass? ==> host.View() == old(host.View()) && Extends(old(host.course), host.course)
      ensures o.Pass? ==> Seen(host.course, Restarts(r, No)) && host.journal == old(host.journal)
      ensures o.Pass? ==> if Sends(old(host.trace), host.trace, [CandidatePolicy(r, No)])
                          then Seen(host.course, CandidateStopped(r))
                          else Sends(old(host.trace), host.trace, [CandidatePolicy(r, No), CandidateSignal(r)])
    {
      hide SiteInv, ViewOf, Moves, Seen, Standing, Shows, Host.Inv;
      :- host.EffectOnCandidate(CandidatePolicy(r, No));
      :- Ask(Restarts(r, No), ContainmentFailed);
      PolicyShown(host.world, r, No);
      if !host.world.candidate.At(r).running {
        StoppedSeen(r);
        return Pass;
      }
      o := host.EffectOnCandidate(CandidateSignal(r));
    }

    lemma StoppedSeen(r: Role)
      requires host.Inv() && !host.world.candidate.At(r).running
      ensures Seen(host.course, CandidateStopped(r))
    {
      StandsSeen(CandidateStopped(r));
    }

    method AwaitCandidate(r: Role, polls: nat) returns (o: Outcome<Code>)
      requires host.Inv()
      modifies host`course, host`journal, host`written, host`world
      ensures Told(o, host.journal) && ContainmentRefused(o)
      ensures host.Inv() && Quietly(old(host.View()), host.View())
      ensures o.Pass? ==> Read(old(host.View()), host.View(), old(host.course), host.course)
      ensures o.Pass? ==> Seen(host.course, CandidateStopped(r)) && host.journal == old(host.journal)
      ensures o.Pass? ==> StoppedSince(host.course, |old(host.course)|, r)
    {
      hide SiteInv, ViewOf, Moves, Seen, Standing, Host.Inv;
      ReadNothing(host.View(), host.course);
      for k := 0 to polls + 1
        invariant host.journal == old(host.journal) && old(host.course) <= host.course
        invariant host.Inv() && Read(old(host.View()), host.View(), old(host.course), host.course)
      {
        var view: World;
        ghost var course := host.course;
        view :- host.Observe();
        ReadOn(old(host.View()), host.View(), old(host.course), course, host.course);
        if !view.candidate.At(r).running {
          StandsSeen(CandidateStopped(r));
          assert !host.course[|host.course| - 1].candidate.At(r).running;
          return Pass;
        }
      }
      o := host.Refuse(ContainmentTimeout);
    }

    /** A failure after the marker stops the candidate and opens a new epoch; never once promoted. */
    method ContainCandidate(polls: nat) returns (o: Outcome<Code>)
      requires host.checked
      requires host.Inv() && host.View().ddl.marker && host.View().candidate.created && !host.View().candidate.promoted
      modifies host`course, host`journal, host`written, host`world, host`trace, host`toCandidate,
               host`containments
      ensures Told(o, host.journal) && ContainmentRefused(o)
      ensures host.Inv() && OnlyCandidate(old(host.View()), host.View())
      ensures !host.View().candidate.promoted
      ensures host.containments == old(host.containments) || host.containments == old(host.containments) + 1
      ensures o.Refused? && host.containments == old(host.containments) ==> o.code == JournalWrite
      ensures o.Pass? ==>
                && host.containments == old(host.containments) + 1
                && host.journal == old(host.journal) + [ContainIntended, CandidateContained]
                && host.written != [] && Halted(host.written[|host.written| - 1])
      ensures o.Pass? ==> host.View().candidate == CandidateView(true, true, false, {}, map[], {}, false, false)
    {
      hide SiteInv, ViewOf, Later, Seen, Standing, Shows, Extends, Host.Inv, Halted, StoppedSince;
      :- host.WriteContain();
      :- StopAll();
      ghost var course := host.course;
      :- AwaitAll(polls);
      ExtendsCandidate(course, host.course);
      HaltedBy(course, host.course);
      o := host.Write(CandidateContained);
    }

    method StopAll() returns (o: Outcome<Code>)
      requires host.checked
      requires host.Inv() && host.View().ddl.marker && host.View().candidate.created && !host.View().candidate.promoted
      requires host.journal != [] && host.journal[|host.journal| - 1] == ContainIntended
      modifies host`course, host`journal, host`written, host`world, host`trace, host`toCandidate
      ensures Told(o, host.journal) && ContainmentRefused(o)
      ensures host.Inv() && Quietly(old(host.View()), host.View())
      ensures o.Pass? ==> host.View() == old(host.View()) && host.journal == old(host.journal)
      ensures o.Pass? ==> forall r: Role :: Seen(host.course, Restarts(r, No))
    {
      hide SiteInv, ViewOf, Seen, Standing, Shows, Extends, Host.Inv;
      for i := 0 to 4
        invariant host.Inv() && host.journal == old(host.journal)
        invariant forall q: Role :: ContainRank(q) < i ==> Seen(host.course, Restarts(q, No))
      {
        ghost var course := host.course;
        :- StopCandidate(ROLES[i]);
        ExtendsCandidate(course, host.course);
      }
      return Pass;
    }

    method AwaitAll(polls: nat) returns (o: Outcome<Code>)
      requires host.Inv()
      modifies host`course, host`journal, host`written, host`world
      ensures Told(o, host.journal) && ContainmentRefused(o)
      ensures host.Inv() && Quietly(old(host.View()), host.View())
      ensures o.Pass? ==> Read(old(host.View()), host.View(), old(host.course), host.course)
      ensures o.Pass? ==> forall r: Role :: Seen(host.course, CandidateStopped(r))
      ensures o.Pass? ==> forall r: Role :: StoppedSince(host.course, |old(host.course)|, r)
      ensures o.Pass? ==> host.journal == old(host.journal) && old(host.course) <= host.course
    {
      hide SiteInv, ViewOf, Seen, Standing, Shows, Extends, Host.Inv, StoppedSince;
      ReadNothing(host.View(), host.course);
      for i := 0 to 4
        invariant host.Inv() && Read(old(host.View()), host.View(), old(host.course), host.course)
        invariant forall q: Role :: ContainRank(q) < i ==> Seen(host.course, CandidateStopped(q))
        invariant forall q: Role :: ContainRank(q) < i ==> StoppedSince(host.course, |old(host.course)|, q)
        invariant host.journal == old(host.journal) && old(host.course) <= host.course
      {
        ghost var course := host.course;
        :- AwaitCandidate(ROLES[i], polls);
        ExtendsCandidate(course, host.course);
        StoppedOn(old(host.course), course, host.course);
        ReadOn(old(host.View()), host.View(), old(host.course), course, host.course);
      }
      return Pass;
    }

    // -- a run ----------------------------------------------------------------------------------------

    /** The steps on the legacy, after everything journaled was revalidated. */
    method LegacySteps(decision: Option<Decision>, until: Option<Stage>, polls: nat)
      returns (o: Outcome<Code>, stop: bool)
      requires host.checked && host.Inv() && !host.View().legacy.resuming
      requires Seen(host.course, Owned) && RevalidSeen(host.View(), host.course)
      requires decision == host.decision
      modifies host`course, host`journal, host`written, host`world, host`trace
      ensures Told(o, host.journal)
      ensures host.Inv() && Later(old(host.View()), host.View())
      ensures o.Pass? ==> (stop <==> until.Some? && Rank(until.value) <= 4)
      ensures o.Pass? && stop ==> until.value in host.View().stages
      ensures o.Pass? && !stop ==> Preflighted in host.View().stages
    {
      hide SiteInv, ViewOf, Host.Inv;
      stop := true;
      :- Observe();
      if until == Some(Observed) { return Pass, true; }
      :- Contain(decision, polls);
      if until == Some(Contained) { return Pass, true; }
      :- Settle();
      if until == Some(Settled) { return Pass, true; }
      :- Reconcile(polls);
      if until == Some(Reconciled) { return Pass, true; }
      :- Preflight();
      return Pass, until == Some(Preflighted);
    }

    method CandidateSteps(decision: Option<Decision>, until: Option<Stage>, polls: nat) returns (o: Outcome<Code>)
      requires host.checked && host.Inv() && !host.View().legacy.resuming && Preflighted in host.View().stages
      requires until.Some? ==> Rank(until.value) > 4
      requires decision == host.decision
      modifies host`course, host`journal, host`written, host`world, host`trace, host`toCandidate
      ensures Told(o, host.journal)
      ensures o.Refused? && !Plain(o.code) ==> host.toCandidate == old(host.toCandidate)
      ensures host.Inv() && Later(old(host.View()), host.View())
      ensures o.Pass? && until.None? ==> host.View().candidate.promoted
      ensures o.Pass? && until.Some? && Rank(until.value) <= 8 ==> ReachedIn(host.View(), until.value)
    {
      hide SiteInv, ViewOf, Host.Inv;
      :- Migrate(decision, polls);
      if until == Some(Migrated) { return Pass; }
      if !host.View().candidate.promoted {
        :- VerifySchema();
        if until == Some(SchemaVerified) { return Pass; }
      }
      PromotedIsVerified();
      :- Candidate(decision, polls);
      if until == Some(CandidateReady) { return Pass; }
      o := Promote();
    }

    method Steps(decision: Option<Decision>, until: Option<Stage>, polls: nat) returns (o: Outcome<Code>)
      requires host.checked && host.Inv() && !host.View().legacy.resuming && Seen(host.course, Owned)
      requires decision == host.decision
      modifies host`course, host`journal, host`written, host`world, host`trace, host`toCandidate
      ensures Told(o, host.journal)
      ensures o.Refused? && !Plain(o.code) ==> host.toCandidate == old(host.toCandidate)
      ensures host.Inv() && Later(old(host.View()), host.View())
      ensures o.Pass? && until.None? ==> host.View().candidate.promoted
      ensures o.Pass? && until.Some? && Rank(until.value) <= 8 ==> ReachedIn(host.View(), until.value)
    {
      hide SiteInv, ViewOf, Seen, Extends, RevalidSeen, Host.Inv;
      ghost var v := host.View();
      o := Revalidate();
      QuietlyMeans(v, host.View());
      if !o.Pass? { return; }
      ReadKeeps(v, host.View(), old(host.course), host.course, Owned);
      var stop;
      o, stop := LegacySteps(decision, until, polls);
      if !o.Pass? || stop { return; }
      o := CandidateSteps(decision, until, polls);
    }

    /** The steps, and what their refusal calls for: after the marker, and before the promotion, a candidate that
        was created is contained; but not for a wait, nor for a missing decision. */
    method StepsOrContain(decision: Option<Decision>, until: Option<Stage>, polls: nat) returns (o: Outcome<Code>)
      requires host.checked && host.Inv() && !host.View().legacy.resuming && Seen(host.course, Owned)
      requires decision == host.decision
      modifies host`course, host`journal, host`written, host`world, host`trace, host`toCandidate, host`containments
      ensures host.Inv() && Later(old(host.View()), host.View())
      ensures o.Pass? ==> host.containments == old(host.containments)
      ensures o.Pass? && until.None? ==> host.View().candidate.promoted
      ensures o.Pass? && until.Some? && Rank(until.value) <= 8 ==> ReachedIn(host.View(), until.value)
      ensures host.containments == old(host.containments) ==> Told(o, host.journal)
      ensures o.Refused? && (o.code.JobActive? || o.code.SessionActive? || o.code.CandidateDecisionRequired?) ==>
                host.containments == old(host.containments) && host.toCandidate == old(host.toCandidate)
      ensures o.Refused? && !o.code.JobActive? && !o.code.SessionActive? && !o.code.CandidateDecisionRequired?
              && host.View().ddl.marker && host.View().candidate.created && !host.View().candidate.promoted ==>
                o.code == JournalWrite || host.containments == old(host.containments) + 1
      ensures host.containments != old(host.containments) ==>
                host.View().ddl.marker && host.View().candidate.created && !host.View().candidate.promoted
      ensures o.Refused? && host.containments != old(host.containments) ==>
                || o.code == ContainmentFailed || o.code == ContainmentTimeout || o.code == PortFailed
                || o.code == JournalWrite
                || WasContained(o.code, host.journal, host.written, host.View().candidate)
    {
      hide SiteInv, ViewOf, Later, Seen, Host.Inv, Told, Halted, ReachedIn;
      ghost var v := host.View();
      o := Steps(decision, until, polls);
      ghost var v1, j1 := host.View(), host.journal;
      if o.Refused? && !WaitCode(o.code) && !o.code.CandidateDecisionRequired? && host.View().ddl.marker
         && !host.View().candidate.promoted && host.View().candidate.created {
        var contained := ContainCandidate(polls);
        OnlyCandidateMeans(v1, host.View());
        LaterTwice(v, v1, host.View());
        if !contained.Pass? {
          o := contained;
        } else {
          WrittenIs();
          ContainedIs(j1, o.code, host.journal, host.written, host.View().candidate);
        }
      }
    }

    /** One invocation. A decision to resume the legacy is exclusive; and nothing is sent over an endpoint that was not
        read as the owned one, not even to contain. */
    method Run(decision: Option<Decision>, until: Option<Stage>, polls: nat) returns (o: Outcome<Code>)
      requires host.Inv() && !host.checked
      requires decision == host.decision
      modifies host`course, host`journal, host`written, host`world, host`trace, host`toCandidate, host`containments,
               host`checked
      ensures host.Inv() && Later(old(host.View()), host.View())
      ensures old(host.View()).legacy.resuming ==>
                !o.Pass? && Quietly(old(host.View()), host.View()) && host.trace == old(host.trace)
      ensures o.Pass? && until.None? ==> host.View().candidate.promoted
      ensures !host.checked ==>
                && !o.Pass? && Quietly(old(host.View()), host.View()) && host.trace == old(host.trace)
                && host.containments == old(host.containments)
      ensures o.Pass? ==> host.containments == old(host.containments)
      ensures host.containments == old(host.containments) ==> Told(o, host.journal)
      ensures o.Refused? && (o.code.JobActive? || o.code.SessionActive? || o.code.CandidateDecisionRequired?) ==>
                host.containments == old(host.containments) && host.toCandidate == old(host.toCandidate)
      ensures o.Refused? && host.checked
              && !o.code.JobActive? && !o.code.SessionActive? && !o.code.CandidateDecisionRequired?
              && host.View().ddl.marker && host.View().candidate.created && !host.View().candidate.promoted ==>
                o.code == JournalWrite || host.containments == old(host.containments) + 1
      ensures host.containments != old(host.containments) ==>
                host.View().ddl.marker && host.View().candidate.created && !host.View().candidate.promoted
      ensures o.Refused? && host.containments != old(host.containments) ==>
                || o.code == ContainmentFailed || o.code == ContainmentTimeout || o.code == PortFailed
                || o.code == JournalWrite
                || WasContained(o.code, host.journal, host.written, host.View().candidate)
    {
      hide SiteInv, ViewOf, Later, Seen, Host.Inv, Halted, WasContained;
      ghost var v := host.View();
      LaterSame(v);
      ResumedIsResuming();
      if LegacyResumed in host.View().stages || host.View().legacy.resuming {
        o := host.Refuse(if LegacyResumed in host.View().stages then LegacyResumedTerminal else LegacyResumeInProgress);
        QuietlyMeans(v, host.View());
        return;
      }
      :- BaseChecks();
      o := StepsOrContain(decision, until, polls);
    }

    lemma WrittenIs()
      requires host.Inv()
      ensures |host.written| == |host.journal|
    {
      hide ViewOf, WellFormed, Witness, TraceInv, JobsInv, LedgerInv, Carried, Containments, SentToCandidate;
    }

    // -- the legacy resumed ------------------------------------------------------------------------------

    method Reproved() returns (o: Outcome<Code>)
      requires host.Inv() && host.View().legacy.observed.Some?
      modifies host`course, host`journal, host`written, host`world
      ensures Told(o, host.journal)
      ensures host.Inv() && Quietly(old(host.View()), host.View())
      ensures o.Pass? ==> Read(old(host.View()), host.View(), old(host.course), host.course)
      ensures o.Pass? ==> RevalidSeen(host.View(), host.course) && UntouchedSeen(host.View(), host.course)
    {
      hide SiteInv, ViewOf, Seen, UntouchedSeen, Host.Inv;
      :- Revalidate();
      o := Untouched();
    }

    method IntendResume(r: Role) returns (o: Outcome<Code>)
      requires host.checked
      requires host.Inv() && !host.View().ddl.marker && host.View().legacy.resuming && host.View().legacy.observed.Some?
      requires ResumeRole(r) !in host.View().legacy.done
      requires RevalidSeen(host.View(), host.course) && UntouchedSeen(host.View(), host.course)
      modifies host`course, host`journal, host`written, host`world, host`trace
      ensures Told(o, host.journal)
      ensures host.Inv() && OnlyLegacy(old(host.View()), host.View())
      ensures host.View().legacy == old(host.View()).legacy.(intents := host.View().legacy.intents)
      ensures o.Pass? ==> ResumeRole(r) in host.View().legacy.intents
      ensures o.Pass? ==>
                var policy := LegacyPolicy(r, host.View().legacy.observed.value.At(r).policy);
                if Sends(old(host.trace), host.trace, [policy]) then Seen(host.course, LegacyRuns(r))
                else Sends(old(host.trace), host.trace, [policy, LegacyStart(r)])
    {
      hide SiteInv, ViewOf, Moves, Host.Inv, UntouchedSeen, RevalidSeen, Seen, Extends, Shows, Sends;
      PoliciesWereAlways();
      var policy := host.View().legacy.observed.value.At(r).policy;
      :- host.WriteIntent(ResumeRole(r));
      :- host.SetLegacyPolicy(r, policy);
      :- Ask(LegacyPolicyIs(r, policy), PolicyNotPersisted);
      ShownPolicy(host.world, r, policy);
      if host.world.legacy.At(r).running {
        LegacySeen(r);
        return Pass;
      }
      ghost var sent := host.trace;
      o := host.StartLegacy(r);
      SendsBoth(old(host.trace), sent, host.trace, LegacyPolicy(r, policy), LegacyStart(r));
    }

    lemma LegacySeen(r: Role)
      requires host.Inv() && host.world.legacy.At(r).running
      ensures Seen(host.course, LegacyRuns(r))
    {
      StandsSeen(LegacyRuns(r));
    }

    /** Only an execution that is exactly ours is receipted. */
    method ConfirmResumed(r: Role, polls: nat) returns (o: Outcome<Code>)
      requires host.Inv() && !host.View().ddl.marker && host.View().legacy.resuming && host.View().legacy.observed.Some?
      requires ResumeRole(r) in host.View().legacy.intents && ResumeRole(r) !in host.View().legacy.done
      modifies host`course, host`journal, host`written, host`world
      ensures Told(o, host.journal)
      ensures host.Inv() && OnlyLegacy(old(host.View()), host.View())
      ensures host.View().legacy == old(host.View()).legacy.(done := host.View().legacy.done)
      ensures old(host.View()).legacy.done.Keys <= host.View().legacy.done.Keys
      ensures o.Pass? ==> ResumeRole(r) in host.View().legacy.done
    {
      hide SiteInv, ViewOf, Moves, Seen, Extends, Standing, Shows, Host.Inv;
      var started := false;
      var view: World;
      for k := 0 to polls + 1
        invariant host.Inv() && host.View() == old(host.View())
      {
        view :- host.Observe();
        started := view.legacy.At(r).running;
        if started { break; }
      }
      :- Demand(started, StartFailed);
      :- Ask(Resumed(r, host.View().legacy.observed.value.At(r)), RestartedDuringResume);
      o := host.WriteDone(ResumeRole(r), host.world.legacy.At(r).started);
    }

    method ResumeOne(r: Role, polls: nat) returns (o: Outcome<Code>)
      requires host.checked
      requires host.Inv() && !host.View().ddl.marker && host.View().legacy.resuming && host.View().legacy.observed.Some?
      modifies host`course, host`journal, host`written, host`world, host`trace
      ensures Told(o, host.journal)
      ensures host.Inv() && OnlyLegacy(old(host.View()), host.View())
      ensures host.View().legacy == old(host.View()).legacy.(intents := host.View().legacy.intents,
          done := host.View().legacy.done)
      ensures old(host.View()).legacy.done.Keys <= host.View().legacy.done.Keys
      ensures o.Pass? ==> ResumeRole(r) in host.View().legacy.done
    {
      hide SiteInv, ViewOf, Host.Inv;
      if ResumeRole(r) in host.View().legacy.done { return Pass; }
      :- Reproved();
      :- IntendResume(r);
      o := ConfirmResumed(r, polls);
    }

    method ResumeRoles(polls: nat) returns (o: Outcome<Code>)
      requires host.checked
      requires host.Inv() && !host.View().ddl.marker && host.View().legacy.resuming && host.View().legacy.observed.Some?
      modifies host`course, host`journal, host`written, host`world, host`trace
      ensures Told(o, host.journal)
      ensures host.Inv() && OnlyLegacy(old(host.View()), host.View())
      ensures host.View().legacy == old(host.View()).legacy.(intents := host.View().legacy.intents,
          done := host.View().legacy.done)
      ensures o.Pass? ==> AllResumed(host.View())
    {
      hide SiteInv, ViewOf, Host.Inv;
      for i := 0 to 4
        invariant host.Inv() && OnlyLegacy(old(host.View()), host.View())
        invariant host.View().legacy == old(host.View()).legacy.(intents := host.View().legacy.intents,
            done := host.View().legacy.done)
        invariant forall q: Role :: StartRank(q) < i ==> ResumeRole(q) in host.View().legacy.done
      {
        :- ResumeOne(START_ORDER[i], polls);
      }
      return Pass;
    }

    /** A committed apply is proved exactly before the legacy comes back; none is created. */
    method RecoverReconciliation(polls: nat) returns (o: Outcome<Code>)
      requires host.checked && host.Inv() && !host.View().ddl.marker && UntouchedSeen(host.View(), host.course)
      modifies host`course, host`journal, host`written, host`world, host`trace
      ensures Told(o, host.journal)
      ensures host.Inv() && Later(old(host.View()), host.View())
      ensures !host.View().ddl.marker && host.View().stages == old(host.View()).stages
      ensures host.terms.kept ==> host.trace == old(host.trace)
      ensures o.Pass? ==> Recovered(host.terms, host.View(), host.course)
    {
      hide SiteInv, ViewOf, Seen, Host.Inv;
      LaterSame(host.View());
      if host.terms.reconcile.None? || host.View().data.base.None? { return Pass; }
      var finished;
      o, finished := FinishReconcile(false, polls);
    }

    /** What every role's container says is read before the decision: nothing unexplained, and until a new
        execution was observed, the data and the queues unchanged. */
    method ResumeEvidence() returns (o: Outcome<Code>)
      requires host.Inv() && host.View().legacy.observed.Some?
      modifies host`course, host`journal, host`written, host`world
      ensures Told(o, host.journal)
      ensures host.Inv() && Quietly(old(host.View()), host.View())
      ensures o.Pass? ==> Read(old(host.View()), host.View(), old(host.course), host.course)
      ensures o.Pass? ==> EvidenceSeen(host.View(), host.course)
    {
      hide SiteInv, ViewOf, Moves, Seen, Standing, Shows, SnapshotSeen, Host.Inv;
      var v := host.View();
      var resumed;
      resumed :- EachEvidence();
      if !resumed {
        if v.data.snapshot.Some? {
          :- Unchanged();
        }
        KeepSnapshot(v, host.course);
        ghost var course := host.course;
        :- Ask(Expected, ExpectationMismatch);
        SnapshotStays(v, course, host.course);
      }
      ghost var course := host.course;
      :- Ask(Scoped, Code.Scope);
      SnapshotStays(v, course, host.course);
      return Pass;
    }

    method EachEvidence() returns (o: Outcome<Code>, resumed: bool)
      requires host.Inv() && host.View().legacy.observed.Some?
      modifies host`course, host`journal, host`written, host`world
      ensures Told(o, host.journal)
      ensures host.Inv() && Quietly(old(host.View()), host.View())
      ensures o.Pass? ==> Read(old(host.View()), host.View(), old(host.course), host.course)
      ensures o.Pass? ==>
                forall r: Role :: Seen(host.course, Explained(host.View(), r, NoExecution))
                                  || Seen(host.course, Explained(host.View(), r, RunningAgain))
      ensures o.Pass? && resumed ==> exists r: Role :: Seen(host.course, Explained(host.View(), r, RunningAgain))
    {
      hide SiteInv, ViewOf, Moves, Seen, Standing, Shows, Host.Inv;
      ReadNothing(host.View(), host.course);
      var v := host.View();
      resumed := false;
      for i := 0 to 4
        invariant host.Inv() && Read(v, host.View(), old(host.course), host.course)
        invariant forall q: Role :: StartRank(q) < i ==>
                    Seen(host.course, Explained(v, q, NoExecution)) || Seen(host.course, Explained(v, q, RunningAgain))
        invariant resumed ==> exists r: Role :: Seen(host.course, Explained(v, r, RunningAgain))
      {
        ghost var course := host.course;
        var evidence;
        o, evidence := EvidenceOf(START_ORDER[i]);
        if !o.Pass? { return; }
        ReadOn(v, host.View(), old(host.course), course, host.course);
        if evidence == RunningAgain { resumed := true; }
      }
      o := Pass;
    }

    method EvidenceOf(r: Role) returns (o: Outcome<Code>, evidence: Evidence)
      requires host.Inv() && host.View().legacy.observed.Some?
      modifies host`course, host`journal, host`written, host`world
      ensures Told(o, host.journal)
      ensures host.Inv() && Quietly(old(host.View()), host.View())
      ensures o.Pass? ==> Read(old(host.View()), host.View(), old(host.course), host.course)
      ensures o.Pass? ==> evidence in {NoExecution, RunningAgain}
                          && Seen(host.course, Explained(host.View(), r, evidence))
    {
      hide SiteInv, ViewOf, Moves, Seen, Standing, Extends, Host.Inv;
      var v := host.View();
      var view;
      o, view := host.Observe();
      evidence := ExecutionEvidence(v, v.legacy.observed.value.At(r), view.legacy.At(r), r);
      if !o.Pass? { return; }
      if evidence == ExitedAfterStart || evidence == Inconsistent {
        o := host.Refuse(ResumeAmbiguous);
        return;
      }
      StandsSeen(Explained(v, r, evidence));
    }

    method BeginResume(polls: nat) returns (o: Outcome<Code>)
      requires host.checked && host.Inv() && !host.View().ddl.marker && Contained in host.View().stages
      requires host.View().legacy.observed.Some?
      requires host.View().legacy.resuming || host.confirmed
      modifies host`course, host`journal, host`written, host`world, host`trace
      ensures Told(o, host.journal)
      ensures host.Inv() && !host.View().ddl.marker && host.View().stages == old(host.View()).stages
      ensures host.View().legacy.observed.Some? && (old(host.View()).legacy.resuming ==> host.View().legacy.resuming)
      ensures o.Pass? ==> host.View().legacy.resuming
      ensures o.Pass? && old(host.View()).legacy.resuming ==> Recovered(host.terms, host.View(), host.course)
    {
      hide SiteInv, ViewOf, Host.Inv, UntouchedSeen, EvidenceSeen, Seen, Extends, Shows;
      :- Untouched();
      :- RecoverReconciliation(polls);
      ghost var v, course := host.View(), host.course;
      :- ResumeEvidence();
      RecoveredStays(host.terms, v, course, host.course);
      if host.View().legacy.resuming { return Pass; }
      o := host.Write(ResumeIntent);
    }

    /** Brings the contained legacy back, role by role. Only before the marker, only contained, and confirmed on
        the first call; each start is preceded by a fresh proof. */
    method ResumeLegacy(confirmed: bool, polls: nat) returns (o: Outcome<Code>)
      requires host.Inv() && confirmed == host.confirmed && !host.checked
      modifies host`course, host`journal, host`written, host`world, host`trace, host`checked
      ensures Told(o, host.journal)
      ensures host.Inv()
      ensures old(host.View()).ddl.marker ==>
                !o.Pass? && Quietly(old(host.View()), host.View()) && host.trace == old(host.trace)
      ensures !old(host.View()).legacy.resuming && (!confirmed || Contained !in old(host.View()).stages) ==>
                !o.Pass? && Quietly(old(host.View()), host.View()) && host.trace == old(host.trace)
      ensures !host.checked ==> !o.Pass? && Quietly(old(host.View()), host.View()) && host.trace == old(host.trace)
      ensures o.Pass? ==> LegacyResumed in host.View().stages && !host.View().ddl.marker
      ensures o.Pass? && LegacyResumed in old(host.View()).stages ==>
                && Seen(host.course, Owned)
                && RevalidSeen(host.View(), host.course) && UntouchedSeen(host.View(), host.course)
    {
      hide SiteInv, ViewOf, Seen, UntouchedSeen, Host.Inv;
      ResumedIsResuming();
      if host.View().ddl.marker {
        o := host.Refuse(PostDdl);
        return;
      }
      if LegacyResumed in host.View().stages {
        :- BaseChecks();
        o := Reproved();
        return;
      }
      :- Demand(host.View().legacy.resuming || confirmed, Confirmation);
      :- BaseChecks();
      :- Revalidate();
      :- Demand(Contained in host.View().stages, ResumeNotContained);
      o := ResumeContained(polls);
    }

    /** What a resume does once endpoint and state were revalidated. */
    method ResumeContained(polls: nat) returns (o: Outcome<Code>)
      requires host.checked && host.Inv() && !host.View().ddl.marker && Contained in host.View().stages
      requires Seen(host.course, Owned) && RevalidSeen(host.View(), host.course)
      requires host.View().legacy.observed.Some?
      requires host.View().legacy.resuming || host.confirmed
      modifies host`course, host`journal, host`written, host`world, host`trace
      ensures Told(o, host.journal)
      ensures host.Inv()
      ensures o.Pass? ==> LegacyResumed in host.View().stages && !host.View().ddl.marker
    {
      hide SiteInv, ViewOf, Host.Inv, Told, UntouchedSeen, RevalidSeen, Seen;
      :- BeginResume(polls);
      :- ResumeRoles(polls);
      :- Reproved();
      o := Reach(LegacyResumed);
    }

    // -- what the journal's facts say here ---------------------------------------------------------------

    lemma UncontainedIsUnmarked()
      requires host.Inv()
      ensures Contained !in host.View().stages ==> !host.View().ddl.marker
      ensures Reconciled !in host.View().stages || Preflighted !in host.View().stages ==> !host.View().ddl.marker
      ensures host.View().legacy.observed.None? ==> host.View().stages == {}
      ensures Observed in host.View().stages ==> host.View().legacy.observed.Some?
    {
      hide ViewOf, WellFormed, Witnessed, TraceInv, JobsInv, LedgerInv;
      FactsHold(host.terms.TheCase(), |host.terms.pending|, host.journal);
      RanksInOrder();
    }

    lemma SignalsBounded(r: Role)
      requires host.Inv()
      ensures SignalsSent(host.trace, r) <= SignalsAllowed(host.View(), r)
    {
      hide ViewOf, Lawful;
    }

    lemma RefusedIsPlain(i: Index)
      requires host.Inv() && i in host.View().ddl.refused
      ensures Plain(host.View().ddl.refused[i].code)
    {
      hide ViewOf, WellFormed, Witnessed, TraceInv, JobsInv, LedgerInv, Carried, Containments, SentToCandidate;
      FactsHold(host.terms.TheCase(), |host.terms.pending|, host.journal);
    }

    lemma JobIsThere(n: JobName)
      requires host.Inv() && n in host.View().ddl.jobs
      ensures host.terms.kept ==> n in host.world.jobs && host.world.jobs[n].id == host.View().ddl.jobs[n]
    {
      hide ViewOf;
    }

    lemma DoneBounded()
      requires host.Inv()
      ensures host.View().ddl.done <= |host.terms.pending|
    {
      hide ViewOf, WellFormed, Witnessed, TraceInv, JobsInv, LedgerInv;
      FactsHold(host.terms.TheCase(), |host.terms.pending|, host.journal);
    }

    lemma MigratedIsMarked()
      requires host.Inv()
      ensures Migrated in host.View().stages || SchemaVerified in host.View().stages ==> host.View().ddl.marker
    {
      hide ViewOf, WellFormed, Witnessed, TraceInv, JobsInv, LedgerInv;
      FactsHold(host.terms.TheCase(), |host.terms.pending|, host.journal);
    }

    lemma NowMayStart()
      requires host.Inv() && SchemaVerified in host.View().stages && host.View().candidate.created
      requires !host.View().candidate.ready && (host.View().candidate.restarted ==> host.View().candidate.retried)
      ensures MayStart(host.View())
    {
      hide ViewOf, WellFormed, Witnessed, TraceInv, JobsInv, LedgerInv;
      FactsHold(host.terms.TheCase(), |host.terms.pending|, host.journal);
    }

    lemma ReadyIsMarked()
      requires host.Inv()
      ensures host.View().candidate.ready ==> host.View().ddl.marker && host.View().candidate.created
      ensures host.View().candidate.promoted ==> host.View().candidate.ready
    {
      hide ViewOf, WellFormed, Witnessed, TraceInv, JobsInv, LedgerInv;
      FactsHold(host.terms.TheCase(), |host.terms.pending|, host.journal);
    }

    lemma PromotedIsVerified()
      requires host.Inv()
      ensures host.View().candidate.promoted ==> SchemaVerified in host.View().stages
    {
      hide ViewOf, WellFormed, Witnessed, TraceInv, JobsInv, LedgerInv;
      FactsHold(host.terms.TheCase(), |host.terms.pending|, host.journal);
    }

    lemma PoliciesWereAlways()
      requires host.Inv()
      ensures host.View().legacy.observed.Some? ==>
                forall r: Role :: host.View().legacy.observed.value.At(r).policy == Always
    {
      hide ViewOf, WellFormed, Witnessed, TraceInv, JobsInv, LedgerInv;
      FactsHold(host.terms.TheCase(), |host.terms.pending|, host.journal);
    }

    lemma ResumedIsResuming()
      requires host.Inv()
      ensures LegacyResumed in host.View().stages ==> host.View().legacy.resuming
      ensures host.View().legacy.resuming ==> Contained in host.View().stages
      ensures host.View().stages != {} ==> host.View().legacy.observed.Some?
    {
      hide ViewOf, WellFormed, Witnessed, TraceInv, JobsInv, LedgerInv;
      FactsHold(host.terms.TheCase(), |host.terms.pending|, host.journal);
    }

    lemma Inactive(i: Index)
      requires host.Inv() && RefusedNow(host.View(), i) && i == host.View().ddl.done
      ensures host.terms.kept ==>
                !Active(host.world, MigrationJob(i, Attempt(host.View(), i))) && !MigrationRunning(host.world)
    {
      RefusedIsInactive(host.terms, host.journal, host.written, host.world, host.trace, i);
    }
  }

  /** Still the execution first observed. */
  predicate Same(item: Identity, p: Process) {
    p.restarts == item.restarts && p.started == item.started
  }

  /** Reads that passed changed nothing that is looked up, and the course only went on. */
  ghost predicate Read(v: View, v': View, course: Course, course': Course) {
    v' == v && Extends(course, course')
  }

  lemma ReadNothing(v: View, course: Course)
    ensures Read(v, v, course, course)
  {
  }

  lemma ReadOn(v: View, v': View, course: Course, course1: Course, course2: Course)
    requires Extends(course, course1) && Extends(course1, course2) && v' == v
    ensures Read(v, v', course, course2)
  {
  }

  lemma OnlyJobsSame(v: View)
    ensures OnlyJobs(v, v)
  {
  }

  lemma ExtendsSeen(course: Course, course': Course, a: Aspect)
    requires Extends(course, course') && Seen(course, a)
    ensures Seen(course', a)
  {
  }

  lemma ExtendsCandidate(course: Course, course': Course)
    requires Extends(course, course')
    ensures forall r: Role :: Seen(course, Restarts(r, No)) ==> Seen(course', Restarts(r, No))
    ensures forall r: Role :: Seen(course, CandidateStopped(r)) ==> Seen(course', CandidateStopped(r))
  {
  }

  lemma ShownPolicy(w: World, r: Role, p: Policy)
    requires Shows(w, LegacyPolicyIs(r, p))
    ensures w.legacy.At(r).policy == p
  {
  }

  lemma ReadKeeps(v: View, v': View, course: Course, course': Course, a: Aspect)
    requires Read(v, v', course, course') && Seen(course, a)
    ensures Seen(course', a)
  {
  }

  lemma KeepSnapshot(v: View, course: Course)
    ensures v.data.snapshot.Some? && SnapshotSeen(v, course) ==> v.data.snapshot.None? || SnapshotSeen(v, course)
  {
  }

  lemma RecoveredStays(t: Terms, v: View, course: Course, course': Course)
    requires Recovered(t, v, course) && Extends(course, course')
    ensures Recovered(t, v, course')
  {
  }

  lemma SnapshotStays(v: View, course: Course, course': Course)
    requires Extends(course, course')
    ensures SnapshotSeen(v, course) ==> SnapshotSeen(v, course')
  {
  }

  lemma ReadyShown(t: Terms, v: View, w: World, course: Course, course': Course)
    requires MayStart(v) && AllStarted(v) && !v.candidate.ready && RunningSeen(v, course) && Extends(course, course')
    requires Seen(course', ReadyOk) && Seen(course', CandidateExpected) && Seen(course', Scoped)
    ensures StageAllowed(|t.pending|, v, CandidateReady) && StageShown(t, v, w, course', CandidateReady)
  {
  }

  lemma StillRuns(course: Course, course': Course, r: Role)
    requires Extends(course, course')
    ensures Seen(course, CandidateRuns(r)) ==> Seen(course', CandidateRuns(r))
  {
  }

  lemma PolicyShown(w: World, r: Role, p: Policy)
    requires Shows(w, Restarts(r, p))
    ensures w.candidate.At(r).policy == p
  {
  }

  /** What was read of a database that stood still holds together. */
  lemma CleanStill(t: Terms, w1: World, w2: World, w3: World, w: World, i: Index)
    requires i < |t.pending| && w1.db == w2.db == w3.db == w.db && !MigrationRunning(w)
    requires Shows(w1, NoInvalid) && Shows(w2, NoIndexes(t.pending[i].indexes)) && Shows(w3, Absent(i))
    ensures CleanRetry(t, w, i)
  {
  }

  /** A reconciliation that was begun is verified, or its apply never ran. */
  ghost predicate Recovered(t: Terms, v: View, course: Course) {
    t.reconcile.None? || v.data.base.None? || v.data.verified || Seen(course, ApplyIdle)
  }

  /** The recorded job is there, and is the wanted one. */
  ghost predicate JobStands(v: View, w: World, n: JobName) {
    n in v.ddl.jobs && n in w.jobs && w.jobs[n].id == v.ddl.jobs[n] && w.jobs[n].matches
  }

  ghost predicate Ended(w: World, n: JobName, exit: Option<int>) {
    n in w.jobs && w.jobs[n].status.Exited? && exit == Some(w.jobs[n].exit)
  }

  lemma SendsBoth(trace: seq<Emission>, trace1: seq<Emission>, trace2: seq<Emission>, a: Op, b: Op)
    requires Sends(trace, trace1, [a]) && Sends(trace1, trace2, [b])
    ensures Sends(trace, trace2, [a, b]) && !Sends(trace, trace2, [a])
  {
    assert trace1[|trace| + 0].op == [a][0] && trace2[|trace1| + 0].op == [b][0];
    assert trace2[..|trace1|][|trace|] == trace1[|trace|];
    assert trace2[..|trace|] == trace2[..|trace1|][..|trace|];
    forall k | 0 <= k < 2 ensures trace2[|trace| + k].op == [a, b][k] { assert k == 0 || k == 1; }
  }

  /** One effect was sent, after this read. */
  ghost predicate SentOne(trace: seq<Emission>, trace': seq<Emission>, op: Op, view: World) {
    |trace'| == |trace| + 1 && trace'[..|trace|] == trace && trace'[|trace|].op == op && trace'[|trace|].view == view
  }

  /** Only steps before the exit of one role may have been added. */
  ghost predicate OnlyContaining(v: View, v': View) {
    && OnlyLegacy(v, v')
    && v'.legacy == v.legacy.(intents := v'.legacy.intents, done := v'.legacy.done, resignals := v'.legacy.resignals)
    && v.legacy.intents <= v'.legacy.intents && v.legacy.done.Keys <= v'.legacy.done.Keys
    && forall q: Role :: Exit(q) in v'.legacy.done <==> Exit(q) in v.legacy.done
  }

  lemma OnlyContainingMeans(v: View, v': View, r: Role)
    requires OnlyContaining(v, v')
    ensures Later(v, v') && v'.stages == v.stages && (ExitsBefore(v', r) <==> ExitsBefore(v, r))
  {
  }

  lemma OnlyContainingTwice(v: View, v1: View, v2: View)
    requires OnlyContaining(v, v1) && OnlyContaining(v1, v2)
    ensures OnlyContaining(v, v2)
  {
  }

  lemma RanksInOrder()
    ensures Rank(Observed) < Rank(Contained) < Rank(Settled) < Rank(Reconciled) < Rank(Preflighted) <= 8
  {
  }

  /** Only job records and migration refusals may have been added. */
  ghost predicate OnlyJobs(v: View, v': View) {
    && v' == v.(ddl := v.ddl.(justMarked := v'.ddl.justMarked, jobIntents := v'.ddl.jobIntents, jobs := v'.ddl.jobs,
                              refused := v'.ddl.refused, begun := v'.ddl.begun))
    && v.ddl.begun <= v'.ddl.begun
    && v.ddl.jobs.Keys <= v'.ddl.jobs.Keys
  }

  lemma OnlyJobsMeans(v: View, v': View)
    requires OnlyJobs(v, v')
    ensures Later(v, v') && v'.ddl.marker == v.ddl.marker && v'.stages == v.stages && v'.data == v.data
    ensures v'.ddl.done == v.ddl.done && v'.ddl.retries == v.ddl.retries
  {
  }

  lemma StillUnrefused(v: View, v1: View, v2: View, i: Index)
    requires OnlyJobs(v, v1) && OnlyJobs(v1, v2) && v2.ddl.refused == v1.ddl.refused == v.ddl.refused
    ensures RefusedNow(v2, i) <==> RefusedNow(v, i)
  {
  }

  lemma OnlyJobsAllow(v: View, v': View, n: JobName)
    requires OnlyJobs(v, v')
    ensures JobAllowed(v, n) && v'.ddl.refused == v.ddl.refused ==> JobAllowed(v', n)
  {
  }

  lemma QuietlyMeans(v: View, v': View)
    ensures Quietly(v, v') ==> Later(v, v')
  {
  }

  lemma JobMoves(t: Terms, w: World, w': World, n: JobName)
    requires Moves(t, w, w')
    ensures t.kept ==> (n in w'.jobs <==> n in w.jobs)
    ensures t.kept && n in w.jobs ==> Progressed(w.jobs[n], w'.jobs[n])
  {
  }

  /** Once an attempt was refused no migration job is active: its own ended, and no other was ever begun. */
  lemma RefusedIsInactive(t: Terms, j: seq<Event>, written: seq<Course>, w: World, trace: seq<Emission>, i: Index)
    requires SiteInv(t, j, written, w, trace) && RefusedNow(ViewOf(j), i) && i == ViewOf(j).ddl.done
    ensures t.kept ==> !Active(w, MigrationJob(i, Attempt(ViewOf(j), i))) && !MigrationRunning(w)
  {
    hide ViewOf, WellFormed, Witnessed, TraceInv;
  }

  // -- what the candidate rests on ---------------------------------------------------------------------

  /** Only what is known of the candidate was changed. */
  ghost predicate OnlyCandidate(v: View, v': View) {
    && v' == v.(candidate := v'.candidate, ddl := v.ddl.(justMarked := v'.ddl.justMarked))
    && (v.candidate.created ==> v'.candidate.created) && (v.candidate.promoted ==> v'.candidate.promoted)
  }

  lemma StartIsLawful(v: View, v': View, w: World, j: seq<Event>, r: Role)
    requires MayStart(v) && OnlyCandidate(v, v') && v'.candidate == v.candidate.(intended := v.candidate.intended + {r})
    requires !w.candidate.At(r).running && j != [] && j[|j| - 1] == StartIntended(r)
    ensures Lawful(v', w, StartCandidate(r)) && Intended(j, StartCandidate(r))
  {
  }

  lemma RecordsCandidate(v: View, e: Event)
    requires e.CandidateCreateIntended? || e.CandidateCreated? || e.StartIntended? || e.CandidateStarted?
             || e.PolicyIntended? || e.PolicyPersisted?
    ensures OnlyCandidate(v, Record(v, e)) && Record(v, e).candidate == RecordCandidate(v.candidate, e)
  {
  }

  lemma OnlyCandidateMeans(v: View, v': View)
    requires OnlyCandidate(v, v')
    ensures Later(v, v')
  {
  }

}
