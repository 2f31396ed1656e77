/** Containment of the four legacy services and their pre-DDL resume, over one site. */
module FirstTransitionHostContract {
  import opened Outcomes
  import opened Roles
  import opened FirstTransitionJournal
  import opened FirstTransitionTheorems
  import opened FirstTransitionSite
  import opened FirstTransitionHostChecks
  import opened FirstTransitionInvariant
  import opened FirstTransitionPorts

  /** At most intents and receipts of the given host steps were added. */
  ghost predicate Touched(v: View, v': View, steps: set<HostStep>) {
    && v' == v.(host := v.host.(intents := v'.host.intents, done := v'.host.done))
    && v.host.intents <= v'.host.intents <= v.host.intents + steps
    && v.host.done.Keys <= v'.host.done.Keys <= v.host.done.Keys + steps
  }

  lemma TouchedMeans(v: View, v': View, steps: set<HostStep>, r: Role)
    requires Touched(v, v', steps)
    ensures v'.host.init == v.host.init
    ensures TermsDoneBefore(v, r) ==> TermsDoneBefore(v', r)
    ensures forall s :: s in v.host.done ==> s in v'.host.done
    ensures forall s :: s !in steps ==>
              (s in v'.host.intents <==> s in v.host.intents) && (s in v'.host.done <==> s in v.host.done)
  {
  }

  lemma TouchedTwice(v: View, v1: View, v2: View, steps: set<HostStep>, more: set<HostStep>)
    requires Touched(v, v1, steps) && Touched(v1, v2, more)
    ensures Touched(v, v2, steps + more)
  {
  }

  lemma TouchedMore(v: View, v': View, steps: set<HostStep>, more: set<HostStep>)
    requires Touched(v, v', steps) && steps <= more
    ensures Touched(v, v', more)
  {
  }

  lemma OnlyContainedReflexive(v: View)
    ensures OnlyContained(v, v)
  {
  }

  lemma OnlyContainedTwice(v: View, v1: View, v2: View)
    requires OnlyContained(v, v1) && OnlyContained(v1, v2)
    ensures OnlyContained(v, v2)
  {
  }

  lemma OnlyContainedMeans(v: View, v': View)
    requires OnlyContained(v, v')
    ensures v.host.init.Some? ==> v'.host.init == v.host.init
    ensures Resuming(v) <==> Resuming(v')
    ensures forall s :: s in v.host.done ==> s in v'.host.done
  {
  }

  lemma TouchedIsContained(v: View, v1: View, v2: View, steps: set<HostStep>)
    requires OnlyContained(v, v1) && Touched(v1, v2, steps) && LegacyResume !in steps
    ensures OnlyContained(v, v2)
  {
  }

  /** Containment may only have added its own events. */
  ghost predicate OnlyContained(v: View, v': View) {
    && v' == v.(host := v'.host)
    && (v.host.init.Some? ==> v'.host.init == v.host.init)
    && (v.host.settled.Some? ==> v'.host.settled == v.host.settled)
    && (v.host.contained ==> v'.host.contained)
    && v.host.drift == v'.host.drift && v.host.resumed == v'.host.resumed
    && v.host.intents <= v'.host.intents && v.host.done.Keys <= v'.host.done.Keys
    && (Resuming(v) <==> Resuming(v'))
  }

  ghost predicate HostIntentAdded(v: View, v': View, s: HostStep) {
    v' == v.(host := v.host.(intents := v.host.intents + {s}))
  }

  ghost predicate HostReceiptAdded(v: View, v': View, s: HostStep, freshStart: nat) {
    v' == v.(host := v.host.(done := v.host.done[s := freshStart]))
  }

  /** A resume may only have added its own events. */
  ghost predicate OnlyResumed(v: View, v': View) {
    && v' == v.(host := v.host.(intents := v'.host.intents, done := v'.host.done, drift := v'.host.drift,
                                resumed := v'.host.resumed))
    && v.host.intents <= v'.host.intents && v.host.done.Keys <= v'.host.done.Keys
  }

  /** An accepted queue drift may have been added. */
  ghost predicate OnlyDrifted(v: View, v': View) {
    v' == v.(host := v.host.(drift := v'.host.drift))
  }

  /** Why a resume is refused before anything is observed, in the order it is asked. */
  function ResumeRefusal(v: View, confirmation: int, expected: Option<int>): (r: Option<Code>)
    ensures r.None? <==>
              && !Marked(v) && v.host.contained && v.host.init.Some?
              && (expected.Some? ==> expected.value == v.host.init.value.fingerprint)
              && (Resuming(v) || confirmation == v.host.init.value.fingerprint)
  {
    if Marked(v) then Some(PostDdlResumeForbidden)
    else if !v.host.contained || v.host.init.None? then Some(Code.NotContained)
    else if expected.Some? && expected.value != v.host.init.value.fingerprint then Some(ResumeConfirmation)
    else if !Resuming(v) && confirmation != v.host.init.value.fingerprint then Some(ResumeConfirmation)
    else None
  }

  /** The legacy as a resume leaves it: both entries open, every role running on its receipted fresh start. */
  ghost predicate LegacyBack(v: View, w: World) {
    && v.host.init.Some? && w.OpenBoth()
    && forall r: Role :: ResumeRole(r) in v.host.done && FreshlyRunning(v, w, r) && w.services.At(r).always
                         && w.services.At(r).started == v.host.done[ResumeRole(r)]
  }

  /** What a faithful host shows a resume. */
  ghost predicate FollowsResume(v: View, w: World) {
    && v.host.init.Some? && v.host.settled == Some(w.queue)
    && StartObservedCheck(v, w).Pass?
    && (StartObserved(v, w) ==> Resuming(v))
    && (StartObserved(v, w) || AllCleanlyStopped(w))
    && (OpenIngress in v.host.done ==> w.OpenBoth())
    && forall r: Role ::
         && (ResumeRole(r) !in v.host.intents && ResumeRole(r) !in v.host.done ==> CleanlyStopped(w.services.At(r)))
         && ((ResumeRole(r) in v.host.intents && ResumeRole(r) !in v.host.done && !w.services.At(r).running)
               ==> StoppedAsContained(v, w, r))
         && (ResumeRole(r) in v.host.intents && w.services.At(r).running ==> FreshlyRunning(v, w, r))
  }

  /** One effect was sent, on this observation and over this journal. */
  ghost predicate OneMore(trace: seq<Emission>, trace': seq<Emission>, op: Op, j: seq<Event>, view: World) {
    && |trace'| == |trace| + 1 && trace'[..|trace|] == trace
    && trace'[|trace|].op == op && trace'[|trace|].past == j && trace'[|trace|].view == view
  }

  class ObservedHostContract {
    const site: Site

    constructor (site: Site)
      ensures this.site == site
    {
      this.site := site;
    }

    // -- the journal --------------------------------------------------------------------

    /** An intent is journaled once. */
    method Intend(s: HostStep) returns (o: Outcome<Code>)
      requires site.Inv()
      requires s in site.View().host.intents || HostIntentAllowed(site.View(), s)
      requires s in site.View().host.intents || Fits(site.terms, site.View(), site.world, HostIntent(s))
      requires s in site.View().host.intents
               || Shown(site.terms.config, site.View(), site.world, site.course, HostIntent(s))
      modifies site`course, site`written, site`journal
      ensures site.Inv() && (site.terms.faithful ==> !o.Refused?) && (site.steady ==> !o.Killed?)
      ensures HostIntentAdded(old(site.View()), site.View(), s)
              || (!o.Pass? && site.View() == old(site.View()))
      ensures s in old(site.View()).host.intents ==> site.journal == old(site.journal)
      ensures s !in old(site.View()).host.intents && o.Pass? ==> site.journal == old(site.journal) + [HostIntent(s)]
    {
      hide SiteInv, Witnessed, Backed, Standing, Fits, Shown, HostIntentAllowed, ViewOf;
      if s in site.View().host.intents {
        assert site.View().host.intents == site.View().host.intents + {s};
        return Pass;
      }
      o := site.Append(HostIntent(s));
    }

    /** So is a receipt, for what was observed. */
    method Receipt(s: HostStep, freshStart: nat) returns (o: Outcome<Code>)
      requires site.Inv()
      requires s in site.View().host.done || HostDoneAllowed(site.View(), s, freshStart)
      requires s in site.View().host.done || Fits(site.terms, site.View(), site.world, HostDone(s, freshStart))
      requires s in site.View().host.done
               || Shown(site.terms.config, site.View(), site.world, site.course, HostDone(s, freshStart))
      modifies site`course, site`written, site`journal
      ensures site.Inv() && (site.terms.faithful ==> !o.Refused?) && (site.steady ==> !o.Killed?)
      ensures if s in old(site.View()).host.done then site.journal == old(site.journal)
              else HostReceiptAdded(old(site.View()), site.View(), s, freshStart)
                   || (!o.Pass? && site.View() == old(site.View()))
    {
      hide SiteInv, Witnessed, Backed, Standing, Fits, Shown, HostDoneAllowed, ViewOf;
      if s in site.View().host.done { return Pass; }
      o := site.Append(HostDone(s, freshStart));
    }

    // -- containment --------------------------------------------------------------------

    method ContainObserve() returns (o: Outcome<Code>, view: World)
      requires site.Inv()
      modifies site`course, site`world
      ensures site.Inv() && view == site.world
      ensures o.Pass? ==> site.course == old(site.course) + [view]
      ensures site.terms.faithful ==> site.world == old(site.world)
      ensures o.Pass? ==> ContainObservation(site.View(), view).Pass?
      ensures site.terms.faithful && !Resuming(site.View()) ==> !o.Refused?
      ensures site.steady ==> !o.Killed?
    {
      hide SiteInv, Witnessed, Backed, Standing, ContainObservation;
      o, view := site.Observe();
      if o.Pass? {
        o := ContainObservation(site.View(), view);
        FaithfulSiteObserves(site.terms, site.journal, view, site.trace);
      }
    }

    method AssertContained() returns (o: Outcome<Code>, view: World)
      requires site.Inv()
      modifies site`course, site`world
      ensures site.Inv() && view == site.world
      ensures o.Pass? ==> site.course == old(site.course) + [view]
      ensures site.terms.faithful ==> site.world == old(site.world)
      ensures o.Pass? ==> ContainedNow(site.View(), view)
      ensures Resuming(site.View()) ==> o == Refused(ResumeStarted) && site.course == old(site.course)
      ensures !Resuming(site.View()) && (site.View().host.init.None? || site.View().host.settled.None?) ==>
                o == Refused(Unobserved) && site.course == old(site.course)
      ensures site.terms.faithful && site.View().host.settled.Some? && !Resuming(site.View()) ==> !o.Refused?
      ensures site.steady ==> !o.Killed?
    {
      hide SiteInv, Witnessed, Backed, Standing, ContainObservation, ContainedCheck, ContainedNow, ViewOf;
      o, view := Pass, site.world;
      FaithfulSiteObserves(site.terms, site.journal, view, site.trace);
      if Resuming(site.View()) { return Refused(ResumeStarted), view; }
      if site.View().host.init.None? || site.View().host.settled.None? { return Refused(Unobserved), view; }
      o, view := ContainObserve();
      if o.Pass? {
        o := ContainedCheck(site.View(), view);
        ContainedCheckMeans(site.View(), view);
        FaithfulSiteObserves(site.terms, site.journal, view, site.trace);
      }
    }

    /** One entry into a step of the containment: what was observed of the ingress and of a role. */
    method ContainLook(r: Role) returns (o: Outcome<Code>, view: World)
      requires site.Inv() && site.View().host.init.Some?
      modifies site`course, site`world
      ensures site.Inv() && view == site.world
      ensures site.terms.faithful ==> site.world == old(site.world)
      ensures site.terms.faithful && !Resuming(site.View()) ==> !o.Refused?
      ensures site.steady ==> !o.Killed?
      ensures o.Pass? ==>
        var v, s := site.View(), view.services.At(r);
        && !Resuming(v)
        && (Ingress in v.host.done ==> view.Blocked())
        && (RestartNo(r) !in v.host.intents ==> s.always)
        && (RestartNo(r) in v.host.done ==> !s.always)
        && (Term(r) !in v.host.intents ==> s.running)
        && (Term(r) in v.host.intents && !s.running ==> s.exit == 0)
        && (Term(r) in v.host.done ==> !s.running)
    {
      hide SiteInv, Witnessed, Backed, Standing, ContainObservation;
      o, view := ContainObserve();
      if o.Pass? {
        ObservationMeans(site.View(), view, r);
      }
    }

    /** A containment effect, sent on the observation its guard just passed. */
    method ContainEffect(op: Op, view: World) returns (o: Outcome<Code>)
      requires site.Inv() && view == site.world && ContainGrounds(site.journal, view, site.trace, op)
      modifies site`course, site`world, site`trace
      ensures site.Inv()
      ensures site.terms.faithful ==> !o.Refused? && ContainReached(op, view, site.world, o.Pass?)
      ensures site.steady ==> !o.Killed?
    {
      hide SiteInv, Witnessed, Backed, Standing, ViewOf, Lawful, Recorded, Exclusive, Reached, Deliver,
        ContainGrounds, ContainReached, Site.Inv;
      ghost var trace := site.trace;
      ContainLawful(site.terms.config, site.journal, view, trace, op);
      o := site.Guarded(op, view, None);
      ReachedWhileContaining(site.terms.config, site.journal, trace, op, view, site.world);
    }

    method DisableRestart(r: Role) returns (o: Outcome<Code>)
      requires site.Inv() && site.View().host.init.Some? && !Resuming(site.View())
      requires Ingress in site.View().host.done && TermsDoneBefore(site.View(), r)
      modifies site`course, site`written, site`journal, site`world, site`trace
      ensures site.Inv() && Touched(old(site.View()), site.View(), {RestartNo(r)})
      ensures site.View().host.done == old(site.View()).host.done
      ensures o.Pass? ==> RestartNo(r) in site.View().host.intents
      ensures site.steady ==> !o.Killed?
      ensures site.terms.faithful ==>
                && !o.Refused? && (o.Pass? ==> !site.world.services.At(r).always)
                && (forall q: Role :: site.world.services.At(q).running == old(site.world).services.At(q).running)
                && (RestartNo(r) in old(site.View()).host.done ==>
                      site.journal == old(site.journal) && site.trace == old(site.trace)
                      && site.world == old(site.world))
    {
      hide SiteInv, Witnessed, Backed, Standing, ViewOf, Site.Inv;
      var view: World;
      view :- ContainLook(r);
      if !view.services.At(r).always { return Pass; }
      :- Intend(RestartNo(r));
      view :- ContainLook(r);
      o := ContainEffect(Op.DisableRestart(r), view);
    }

    method ConfirmDisabled(r: Role) returns (o: Outcome<Code>)
      requires site.Inv() && site.View().host.init.Some? && !Resuming(site.View())
      requires Ingress in site.View().host.done && TermsDoneBefore(site.View(), r)
      requires RestartNo(r) in site.View().host.intents
      modifies site`course, site`written, site`journal, site`world
      ensures site.Inv() && Touched(old(site.View()), site.View(), {RestartNo(r)})
      ensures o.Pass? ==> RestartNo(r) in site.View().host.done
      ensures site.steady ==> !o.Killed?
      ensures site.terms.faithful ==>
                && site.world == old(site.world)
                && (o.Refused? ==> site.world.services.At(r).always)
                && (RestartNo(r) in old(site.View()).host.done ==> site.journal == old(site.journal))
    {
      hide SiteInv, Witnessed, Backed, Standing, ViewOf, Site.Inv;
      var view: World;
      view :- ContainLook(r);
      if view.services.At(r).always { return Refused(RestartNotDisabled); }
      o := Receipt(RestartNo(r), 0);
    }

    method Disabled(r: Role) returns (o: Outcome<Code>)
      requires site.Inv() && site.View().host.init.Some? && !Resuming(site.View())
      requires Ingress in site.View().host.done && TermsDoneBefore(site.View(), r)
      modifies site`course, site`written, site`journal, site`world, site`trace
      ensures site.Inv() && Touched(old(site.View()), site.View(), {RestartNo(r)})
      ensures o.Pass? ==> RestartNo(r) in site.View().host.done
      ensures site.steady ==> !o.Killed?
      ensures site.terms.faithful ==>
                && !o.Refused?
                && (forall q: Role :: site.world.services.At(q).running == old(site.world).services.At(q).running)
                && (RestartNo(r) in old(site.View()).host.done ==>
                      site.journal == old(site.journal) && site.trace == old(site.trace)
                      && site.world == old(site.world))
    {
      hide SiteInv, Witnessed, Backed, Standing, ViewOf, Site.Inv;
      :- DisableRestart(r);
      o := ConfirmDisabled(r);
    }

    method BlockIngress() returns (o: Outcome<Code>)
      requires site.Inv() && site.View().host.init.Some? && !Resuming(site.View())
      modifies site`course, site`written, site`journal, site`world, site`trace
      ensures site.Inv() && Touched(old(site.View()), site.View(), {Ingress})
      ensures o.Pass? ==> Ingress in site.View().host.done
      ensures site.steady ==> !o.Killed?
      ensures site.terms.faithful ==>
                && !o.Refused? && site.world.services == old(site.world).services
                && (Ingress in old(site.View()).host.done ==>
                      site.journal == old(site.journal) && site.trace == old(site.trace)
                      && site.world == old(site.world))
    {
      hide SiteInv, Witnessed, Backed, Standing, ViewOf, Site.Inv;
      var view: World;
      view :- ContainLook(Backend);
      if !view.Blocked() {
        :- Intend(Ingress);
        view :- ContainLook(Backend);
        :- ContainEffect(BlockEntries, view);
      }
      o := ConfirmBlocked();
    }

    method ConfirmBlocked() returns (o: Outcome<Code>)
      requires site.Inv() && site.View().host.init.Some? && !Resuming(site.View())
      modifies site`course, site`written, site`journal, site`world
      ensures site.Inv() && Touched(old(site.View()), site.View(), {Ingress})
      ensures o.Pass? ==> Ingress in site.View().host.done
      ensures site.steady ==> !o.Killed?
      ensures site.terms.faithful ==>
                && site.world == old(site.world)
                && (o.Refused? ==> !site.world.Blocked())
                && (Ingress in old(site.View()).host.done ==> site.journal == old(site.journal))
    {
      hide SiteInv, Witnessed, Backed, Standing, ViewOf, Site.Inv;
      var view: World;
      view :- ContainLook(Backend);
      if !view.Blocked() { return Refused(IngressOpen); }
      o := Receipt(Ingress, 0);
    }

    /** SIGTERM once: an unreceipted signal is never sent again. */
    method Signal(r: Role) returns (o: Outcome<Code>)
      requires site.Inv() && site.View().host.init.Some? && !Resuming(site.View())
      requires Ingress in site.View().host.done && TermsDoneBefore(site.View(), r)
      requires RestartNo(r) in site.View().host.done
      requires Term(r) !in site.View().host.intents && Term(r) !in site.View().host.done
      modifies site`course, site`written, site`journal, site`world, site`trace
      ensures site.Inv() && Touched(old(site.View()), site.View(), {Term(r)})
      ensures site.View().host.done == old(site.View()).host.done
      ensures o.Pass? ==> Term(r) in site.View().host.intents
      ensures site.steady ==> !o.Killed?
      ensures site.terms.faithful ==>
                && !o.Refused? && (o.Pass? ==> !site.world.services.At(r).running)
                && (forall q: Role | q != r :: site.world.services.At(q) == old(site.world).services.At(q))
    {
      hide SiteInv, Witnessed, Backed, Standing, ViewOf;
      var view: World;
      NotYetSignalled(site.terms, site.journal, site.world, site.trace, r);
      :- Intend(Term(r));
      assert site.journal[|site.journal| - 1] == HostIntent(Term(r));
      view :- ContainLook(r);
      o := ContainEffect(SignalTerm(r), view);
    }

    method StopRole(r: Role) returns (o: Outcome<Code>)
      requires site.Inv() && site.View().host.init.Some? && !Resuming(site.View())
      requires Ingress in site.View().host.done && TermsDoneBefore(site.View(), r)
      requires RestartNo(r) in site.View().host.done
      modifies site`course, site`written, site`journal, site`world, site`trace
      ensures site.Inv() && Touched(old(site.View()), site.View(), {Term(r)})
      ensures o.Pass? ==> Term(r) in site.View().host.done
      ensures site.steady ==> !o.Killed?
      ensures site.terms.faithful ==>
                && (if Undelivered(old(site.View()), old(site.world), r) then !o.Pass? else !o.Refused?)
                && (forall q: Role | q != r :: site.world.services.At(q) == old(site.world).services.At(q))
                && (Term(r) in old(site.View()).host.done || Undelivered(old(site.View()), old(site.world), r) ==>
                      site.journal == old(site.journal) && site.trace == old(site.trace)
                      && site.world == old(site.world))
    {
      hide SiteInv, Witnessed, Backed, Standing, ViewOf, Site.Inv;
      var view: World;
      view :- ContainLook(r);
      if view.services.At(r).running {
        if Term(r) !in site.View().host.intents {
          :- Signal(r);
        }
        :- site.AwaitStopped(r);
      }
      o := ConfirmStopped(r);
    }

    method ConfirmStopped(r: Role) returns (o: Outcome<Code>)
      requires site.Inv() && site.View().host.init.Some? && !Resuming(site.View())
      requires Ingress in site.View().host.done && TermsDoneBefore(site.View(), r)
      requires RestartNo(r) in site.View().host.done
      modifies site`course, site`written, site`journal, site`world
      ensures site.Inv() && Touched(old(site.View()), site.View(), {Term(r)})
      ensures o.Pass? ==> Term(r) in site.View().host.done
      ensures site.steady ==> !o.Killed?
      ensures site.terms.faithful ==>
                && site.world == old(site.world)
                && (o.Refused? ==> site.world.services.At(r).running)
                && (Term(r) in old(site.View()).host.done ==> site.journal == old(site.journal))
    {
      hide SiteInv, Witnessed, Backed, Standing, ViewOf, Site.Inv;
      var view: World;
      view :- ContainLook(r);
      if view.services.At(r).running || view.services.At(r).exit != 0 { return Refused(ExitNotClean); }
      o := Receipt(Term(r), 0);
    }

    method ContainRole(r: Role) returns (o: Outcome<Code>)
      requires site.Inv() && site.View().host.init.Some? && !Resuming(site.View())
      requires Ingress in site.View().host.done && TermsDoneBefore(site.View(), r)
      modifies site`course, site`written, site`journal, site`world, site`trace
      ensures site.Inv() && Touched(old(site.View()), site.View(), {RestartNo(r), Term(r)})
      ensures o.Pass? ==> Term(r) in site.View().host.done
      ensures site.steady ==> !o.Killed?
      ensures site.terms.faithful ==>
                && (if Undelivered(old(site.View()), old(site.world), r) then !o.Pass? else !o.Refused?)
                && (forall q: Role | q != r ::
                      site.world.services.At(q).running == old(site.world).services.At(q).running)
                && (Term(r) in old(site.View()).host.done || Undelivered(old(site.View()), old(site.world), r) ==>
                      site.journal == old(site.journal) && site.trace == old(site.trace)
                      && site.world == old(site.world))
    {
      hide SiteInv, Witnessed, Backed, Standing, ViewOf, Touched, TermsDoneBefore, Site.Inv;
      ghost var v := site.View();
      RestsHere(r);
      o := Disabled(r);
      TouchedMeans(v, site.View(), {RestartNo(r)}, r);
      TouchedMore(v, site.View(), {RestartNo(r)}, {RestartNo(r), Term(r)});
      ghost var v1 := site.View();
      if o.Pass? {
        o := StopRole(r);
        TouchedTwice(v, v1, site.View(), {RestartNo(r)}, {Term(r)});
        assert {RestartNo(r)} + {Term(r)} == {RestartNo(r), Term(r)};
      }
    }

    lemma FactsHere()
      requires site.Inv()
      ensures HostFacts(site.View())
    {
      FactsHold(site.terms.config, site.journal);
    }

    lemma RestsHere(r: Role)
      requires site.Inv()
      ensures Term(r) in site.View().host.intents || Term(r) in site.View().host.done ==>
                RestartNo(r) in site.View().host.done
      ensures Term(r) in site.View().host.done ==> Term(r) in site.View().host.intents
    {
      TermsRest(site.terms, site.journal, site.world, site.trace, r);
    }

    lemma StuckHere() returns (u: Role)
      requires site.Inv()
      ensures Stuck(site.View(), site.world) ==>
                && Undelivered(site.View(), site.world, u)
                && site.View().host.init.Some? && Ingress in site.View().host.done && TermsDoneBefore(site.View(), u)
    {
      u := FindStuck(site.terms, site.journal, site.world, site.trace);
    }

    /** The baseline of a healthy legacy, once. */
    method Baseline() returns (o: Outcome<Code>)
      requires site.Inv() && !Resuming(site.View())
      modifies site`course, site`written, site`journal, site`world
      ensures site.Inv() && OnlyContained(old(site.View()), site.View())
      ensures o.Pass? ==> site.View().host.init.Some?
      ensures old(site.View()).host.init.Some? ==> site.journal == old(site.journal)
      ensures site.View().host.intents == old(site.View()).host.intents
      ensures site.View().host.done == old(site.View()).host.done
      ensures site.terms.faithful ==> !o.Refused? && site.world == old(site.world)
      ensures site.steady ==> !o.Killed?
    {
      hide SiteInv, Witnessed, Backed, Standing, ViewOf;
      var view;
      view :- ContainObserve();
      if site.View().host.init.None? {
        if site.terms.faithful {
          FaithfulSiteIsHealthy(site.terms, site.journal, view, site.trace);
        }
        if !AllHealthy(view) { return Refused(BaselineState); }
        var s := view.services;
        o := site.Append(HostInit(view.fingerprint,
                                  PerRole(s.backend.started, s.cron.started, s.broadcast.started,
                                      s.queueWorker.started),
                                  PerRole(s.backend.restarts, s.cron.restarts, s.broadcast.restarts,
                                          s.queueWorker.restarts)));
      } else {
        o := Pass;
      }
    }

    method ContainRoles() returns (o: Outcome<Code>)
      requires site.Inv() && site.View().host.init.Some? && !Resuming(site.View())
      requires Ingress in site.View().host.done
      modifies site`course, site`written, site`journal, site`world, site`trace
      ensures site.Inv() && OnlyContained(old(site.View()), site.View())
      ensures o.Pass? ==> AllTermsDone(site.View())
      ensures site.steady ==> !o.Killed?
      ensures site.terms.faithful && Stuck(old(site.View()), old(site.world)) ==>
                && !o.Pass? && site.journal == old(site.journal) && site.trace == old(site.trace)
                && site.world == old(site.world)
      ensures site.terms.faithful && !Stuck(old(site.View()), old(site.world)) ==> !o.Refused?
    {
      hide SiteInv, Witnessed, Backed, Standing, ViewOf, OnlyContained, Stuck, Touched, Site.Inv;
      ghost var stuck := Stuck(site.View(), site.world);
      ghost var u := StuckHere();
      OnlyContainedReflexive(site.View());
      var i := 0;
      while i < 4
        invariant 0 <= i <= 4 && site.Inv()
        invariant OnlyContained(old(site.View()), site.View())
        invariant site.View().host.init.Some? && !Resuming(site.View()) && Ingress in site.View().host.done
        invariant forall q: Role :: ContainRank(q) < i ==> Term(q) in site.View().host.done
        invariant site.terms.faithful && stuck ==>
                    site.journal == old(site.journal) && site.trace == old(site.trace)
                    && site.world == old(site.world)
        invariant site.terms.faithful && !stuck ==> !Stuck(site.View(), site.world)
      {
        var r := ROLES[i];
        ghost var v, w := site.View(), site.world;
        o := ContainRole(r);
        TouchedIsContained(old(site.View()), v, site.View(), {RestartNo(r), Term(r)});
        TouchedMeans(v, site.View(), {RestartNo(r), Term(r)}, r);
        StuckNowhereElse(v, w, site.View(), site.world, r);
        if !o.Pass? { return; }
        i := i + 1;
      }
      return Pass;
    }

    /** The settled queue and the contained receipt, once each. */
    method Settle() returns (o: Outcome<Code>)
      requires site.Inv() && !Resuming(site.View()) && site.View().host.init.Some?
      requires AllTermsDone(site.View()) && Ingress in site.View().host.done
      modifies site`course, site`written, site`journal, site`world
      ensures site.Inv() && OnlyContained(old(site.View()), site.View())
      ensures o.Pass? ==> site.View().host.contained && ContainedNow(site.View(), site.world)
      ensures site.terms.faithful ==> !o.Refused? && site.world == old(site.world)
      ensures site.steady ==> !o.Killed?
    {
      hide SiteInv, Witnessed, Backed, Standing, ViewOf, ContainedNow, AllTermsDone, HostFacts, Shown, Site.Inv;
      var view;
      view :- ContainObserve();
      FactsHere();
      if site.View().host.settled.None? {
        SettledAllowed(site.View(), view, site.terms);
        :- site.Append(HostSettled(view.queue));
      }
      o := ConfirmContained();
    }

    method ConfirmContained() returns (o: Outcome<Code>)
      requires site.Inv() && !Resuming(site.View()) && site.View().host.init.Some?
      requires site.View().host.settled.Some?
      modifies site`course, site`written, site`journal, site`world
      ensures site.Inv() && OnlyContained(old(site.View()), site.View())
      ensures o.Pass? ==> site.View().host.contained && ContainedNow(site.View(), site.world)
      ensures site.terms.faithful ==> !o.Refused? && site.world == old(site.world)
      ensures site.steady ==> !o.Killed?
    {
      hide SiteInv, Witnessed, Backed, Standing, ViewOf, Site.Inv;
      var view;
      view :- AssertContained();
      if !site.View().host.contained {
        o := site.Append(HostContained(view.fingerprint, site.View().host.settled.value));
      } else {
        o := Pass;
      }
    }

    /** Blocks the ingress, then for each role turns its restart off, signals it once and waits for a clean
        exit; every step is intended before and receipted after. A replay from any crash point completes
        in a faithful site, except from the one where a signal was intended and never delivered. */
    method Contain() returns (o: Outcome<Code>)
      requires site.Inv()
      modifies site`course, site`written, site`journal, site`world, site`trace
      ensures site.Inv() && OnlyContained(old(site.View()), site.View())
      ensures Resuming(old(site.View())) ==> o == Refused(ResumeStarted) && site.journal == old(site.journal)
                                             && site.trace == old(site.trace) && site.world == old(site.world)
      ensures o.Pass? ==> site.View().host.contained && ContainedNow(site.View(), site.world)
      ensures site.steady ==> !o.Killed?
      ensures site.terms.faithful && site.steady && !Resuming(old(site.View()))
              ==> (o.Pass? <==> !Stuck(old(site.View()), old(site.world)))
      ensures site.terms.faithful && o.Pass? ==> HostOf(site.world) == HostOf(ContainedFrom(site.terms.origin))
      ensures site.terms.faithful && Stuck(old(site.View()), old(site.world)) ==>
                && !o.Pass? && site.journal == old(site.journal) && site.trace == old(site.trace)
                && site.world == old(site.world)
    {
      hide SiteInv, Witnessed, Backed, Standing, ViewOf, OnlyContained, Stuck, Touched, ContainedNow, AllTermsDone,
        ContainObservation;
      ghost var v0, w0 := site.View(), site.world;
      ghost var u := FindStuck(site.terms, site.journal, site.world, site.trace);
      OnlyContainedReflexive(v0);
      if Resuming(site.View()) { return Refused(ResumeStarted); }
      o := Baseline();
      ghost var v1 := site.View();
      OnlyContainedMeans(v0, v1);
      SameStuck(v0, v1, w0, site.world);
      if !o.Pass? { return; }
      o := BlockIngress();
      TouchedIsContained(v0, v1, site.View(), {Ingress});
      TouchedMeans(v1, site.View(), {Ingress}, Backend);
      SameStuck(v1, site.View(), w0, site.world);
      if !o.Pass? { return; }
      ghost var v2 := site.View();
      o := ContainRoles();
      ghost var v3 := site.View();
      OnlyContainedTwice(v0, v2, v3);
      OnlyContainedMeans(v2, v3);
      if !o.Pass? { return; }
      o := Settle();
      OnlyContainedTwice(v0, v3, site.View());
      if o.Pass? && site.terms.faithful {
        OnlyContainedMeans(v0, site.View());
        SameContainedState(site.terms, site.journal, site.world, site.trace);
      }
    }

    // -- resume -------------------------------------------------------------------------

    method ResumeObserve() returns (o: Outcome<Code>, view: World)
      requires site.Inv() && site.View().host.contained
      modifies site`course, site`world
      ensures site.Inv() && view == site.world
      ensures site.View().host.init.Some? && HostFacts(site.View())
      ensures site.terms.faithful ==> site.world == old(site.world)
      ensures o.Pass? ==> ResumeCheck(site.View(), view).Pass?
      ensures site.terms.faithful && !Marked(site.View()) ==> !o.Refused? && FollowsResume(site.View(), view)
      ensures site.steady ==> !o.Killed?
    {
      hide SiteInv, Witnessed, Backed, Standing, ViewOf, ResumeCheck, FollowsResume, Marked;
      o, view := site.Observe();
      SiteResumes(site.terms, site.journal, view, site.trace);
      if o.Pass? {
        o := ResumeCheck(site.View(), view);
      }
    }

    /** Before the first actual start the queue is the settled one, or its drift is accepted and journaled. */
    method QueueGate(view: World, allowDrift: bool) returns (o: Outcome<Code>)
      requires site.Inv() && site.View().host.contained && !Marked(site.View()) && site.View().host.settled.Some?
      requires view == site.world
      modifies site`course, site`written, site`journal
      ensures site.Inv() && OnlyDrifted(old(site.View()), site.View())
      ensures o.Pass? ==> QueueGated(site.View(), view)
                          && (allowDrift || site.View().host.settled == Some(view.queue))
      ensures site.View().host.settled == Some(view.queue) ==> !o.Refused? && site.journal == old(site.journal)
      ensures !allowDrift ==> site.View().host.drift == old(site.View()).host.drift
      ensures site.steady ==> !o.Killed?
      ensures allowDrift && o.Refused? ==> o.code == JournalWrite && !site.terms.faithful
    {
      hide SiteInv, Witnessed, Backed, Standing, ViewOf;
      var settled := site.View().host.settled.value;
      if view.queue == settled { return Pass; }
      if !allowDrift { return Refused(QueueDrift); }
      if site.View().host.drift == Some(view.queue) { return Pass; }
      o := site.Append(DriftAccepted(settled, view.queue));
    }

    /** Only a container that was never started, and only past the queue gate until one was. */
    method CheckStart(r: Role, view: World, allowDrift: bool) returns (o: Outcome<Code>)
      requires site.Inv() && site.View().host.contained && site.View().host.settled.Some?
      requires site.View().host.init.Some? && ResumeCheck(site.View(), view).Pass? && view == site.world
      modifies site`course, site`written, site`journal
      ensures site.Inv() && OnlyDrifted(old(site.View()), site.View()) && ResumeCheck(site.View(), view).Pass?
      ensures o.Pass? ==> StoppedAsContained(site.View(), view, r)
      ensures o.Pass? ==>
                StartObserved(site.View(), view)
                || (QueueGated(site.View(), view) && (allowDrift || site.View().host.settled == Some(view.queue)))
      ensures (FollowsResume(old(site.View()), view) && ResumeRole(r) in old(site.View()).host.intents
               && ResumeRole(r) !in old(site.View()).host.done && !view.services.At(r).running) ==> !o.Refused?
      ensures !allowDrift ==> site.View().host.drift == old(site.View()).host.drift
      ensures site.steady ==> !o.Killed?
    {
      hide SiteInv, Witnessed, Backed, Standing, ViewOf, ResumeCheck, StartObserved, StoppedAsContained,
        StartObservedCheck, FreshlyRunning, CleanlyStopped;
      ghost var v := site.View();
      NotMarkedOnceChecked(v, view);
      o := StartCheck(site.View(), view, r);
      if o.Pass? && !StartObserved(site.View(), view) {
        o := QueueGate(view, allowDrift);
        DriftIrrelevant(v, site.View(), view);
      }
    }

    /** A resume effect, sent on the final observation once its guard and then the ledger proof passed. */
    method ResumeEffect(op: Op, view: World) returns (o: Outcome<Code>)
      requires site.Inv() && !Marked(site.View()) && site.View().host.init.Some? && ResumeCheck(site.View(), view).Pass?
      requires op.StartService? || op.EnableRestart? || op.OpenEntries?
      requires site.terms.adjacent ==> view == site.world
      requires forall proof :: DdlFree(site.terms.config, proof) ==>
                 Lawful(site.terms.config, Emission(op, site.journal, view, Some(proof), view, false, None))
                     && Recorded(site.View(), op)
      modifies site`course, site`world, site`trace
      ensures site.Inv()
      ensures OneMore(old(site.trace), site.trace, op, site.journal, view)
              || (!o.Pass? && site.trace == old(site.trace))
      ensures site.steady ==> !o.Killed?
      ensures site.terms.faithful ==> !o.Refused?
      ensures site.terms.faithful && o.Pass? ==> site.world == Deliver(site.terms.config, op, old(site.world))
    {
      hide SiteInv, Witnessed, Backed, Standing, ViewOf, ResumeCheck, Lawful, Recorded, Deliver, DdlFree;
      FaithfulDatabaseIsBaseline(site.terms, site.journal, site.world, site.trace);
      var proof;
      proof :- site.ProveLedger();
      LawfulRests(site.terms.config, Emission(op, site.journal, view, Some(proof), view, false, None),
                  Emission(op, site.journal, view, Some(proof), site.world, false, None));
      o := site.Guarded(op, view, Some(proof));
    }

    /** The start itself: its guard judges the final observation, and may still journal a drift. What is sent met
        that guard: the container carries its contained stamps, and the queue gate holds until a start is
        observed. */
    method SendStart(r: Role, allowDrift: bool) returns (o: Outcome<Code>)
      requires site.Inv() && !Marked(site.View()) && Resuming(site.View()) && ResumedBefore(site.View(), r)
      requires site.View().host.contained && site.View().host.settled.Some?
      requires ResumeRole(r) in site.View().host.intents && ResumeRole(r) !in site.View().host.done
      requires site.View().host.init.Some? && StoppedAsContained(site.View(), site.world, r)
      requires !site.world.services.At(r).running
      requires StartObserved(site.View(), site.world) || QueueGated(site.View(), site.world)
      modifies site`course, site`written, site`journal, site`world, site`trace
      ensures site.Inv() && OnlyDrifted(old(site.View()), site.View())
      ensures (!o.Pass? && site.trace == old(site.trace))
              || (exists view :: OneMore(old(site.trace), site.trace, StartService(r), site.journal, view)
                    && StoppedAsContained(site.View(), view, r)
                    && (StartObserved(site.View(), view)
                        || (QueueGated(site.View(), view)
                            && (allowDrift || site.View().host.settled == Some(view.queue)))))
      ensures !allowDrift ==> site.View().host.drift == old(site.View()).host.drift
      ensures site.steady ==> !o.Killed?
      ensures site.terms.faithful ==> !o.Refused?
      ensures site.terms.faithful && o.Pass? ==> site.world == Started(old(site.world), r)
    {
      hide SiteInv, Witnessed, Backed, Standing, ViewOf, ResumeCheck, StartObserved, StoppedAsContained,
        FreshlyRunning, CleanlyStopped, Lawful, Recorded, DdlFree, StartObservedCheck, Started;
      ghost var v := site.View();
      var view: World;
      view :- ResumeObserve();
      :- CheckStart(r, view, allowDrift);
      DriftIrrelevantToRest(v, site.View(), r);
      forall proof | DdlFree(site.terms.config, proof)
        ensures Lawful(site.terms.config, Emission(StartService(r), site.journal, view, Some(proof), view, false, None))
        ensures Recorded(site.View(), StartService(r))
      {
        StartLawful(site.terms.config, site.journal, view, proof, r);
      }
      o := ResumeEffect(StartService(r), view);
    }

    method StartRole(r: Role, allowDrift: bool) returns (o: Outcome<Code>)
      requires site.Inv() && !Marked(site.View()) && Resuming(site.View()) && ResumedBefore(site.View(), r)
      requires site.View().host.contained && site.View().host.settled.Some?
      requires ResumeRole(r) in site.View().host.intents && ResumeRole(r) !in site.View().host.done
      modifies site`course, site`written, site`journal, site`world, site`trace
      ensures site.Inv() && OnlyDrifted(old(site.View()), site.View())
      ensures !allowDrift ==> site.View().host.drift == old(site.View()).host.drift
      ensures site.steady ==> !o.Killed?
      ensures site.terms.faithful ==> !o.Refused? && (o.Pass? ==> site.world.services.At(r).running)
    {
      hide SiteInv, Witnessed, Backed, Standing, ViewOf, ResumeCheck, StartObserved, StoppedAsContained,
        StartObservedCheck;
      ghost var v := site.View();
      var view: World;
      view :- ResumeObserve();
      if view.services.At(r).running { return Pass; }
      :- CheckStart(r, view, allowDrift);
      DriftIrrelevantToRest(v, site.View(), r);
      o := SendStart(r, allowDrift);
    }

    method EnableRole(r: Role) returns (o: Outcome<Code>)
      requires site.Inv() && !Marked(site.View()) && Resuming(site.View()) && site.View().host.contained
      requires ResumeRole(r) in site.View().host.intents && ResumeRole(r) !in site.View().host.done
      modifies site`course, site`world, site`trace
      ensures site.Inv()
      ensures site.steady ==> !o.Killed?
      ensures site.terms.faithful ==> (site.world.services.At(r).running || o.Refused? || o.Killed?)
                                      && (old(site.world).services.At(r).running ==> !o.Refused?)
      ensures site.terms.faithful && o.Pass? ==> site.world.services.At(r).always
      ensures o.Pass? ==>
                && site.View().host.init.Some?
                && if site.trace == old(site.trace)
                   then FreshlyRunning(site.View(), site.world, r) && site.world.services.At(r).always
                   else exists view :: OneMore(old(site.trace), site.trace, EnableRestart(r), site.journal, view)
                                       && FreshlyRunning(site.View(), view, r)
    {
      hide SiteInv, Witnessed, Backed, Standing, ViewOf, ResumeCheck, Lawful, Recorded, DdlFree, Site.Inv;
      var view: World;
      view :- ResumeObserve();
      if !FreshlyRunning(site.View(), view, r) { return Refused(ResumeNotFresh); }
      if view.services.At(r).always { return Pass; }
      view :- ResumeObserve();
      if !FreshlyRunning(site.View(), view, r) { return Refused(ResumeNotFresh); }
      forall proof | DdlFree(site.terms.config, proof)
        ensures Lawful(site.terms.config,
                       Emission(EnableRestart(r), site.journal, view, Some(proof), view, false, None))
        ensures Recorded(site.View(), EnableRestart(r))
      {
        EnableLawful(site.terms.config, site.journal, view, proof, r);
      }
      o := ResumeEffect(EnableRestart(r), view);
    }

    method ConfirmResumed(r: Role) returns (o: Outcome<Code>)
      requires site.Inv() && !Marked(site.View()) && Resuming(site.View()) && ResumedBefore(site.View(), r)
      requires site.View().host.contained
      requires ResumeRole(r) in site.View().host.intents && ResumeRole(r) !in site.View().host.done
      modifies site`course, site`written, site`journal, site`world
      ensures site.Inv() && OnlyResumed(old(site.View()), site.View())
      ensures o.Pass? ==> ResumeRole(r) in site.View().host.done
      ensures site.View().host.drift == old(site.View()).host.drift
      ensures site.steady ==> !o.Killed?
      ensures site.terms.faithful && old(site.world).services.At(r).running && old(site.world).services.At(r).always
              ==> !o.Refused?
    {
      hide SiteInv, Witnessed, Backed, Standing, ViewOf, ResumeCheck;
      var view: World;
      view :- ResumeObserve();
      if !view.services.At(r).always { return Refused(RestartNotEnabled); }
      if !FreshlyRunning(site.View(), view, r) { return Refused(ResumeNotFresh); }
      o := Receipt(ResumeRole(r), view.services.At(r).started);
    }

    method IntendRole(r: Role) returns (o: Outcome<Code>)
      requires site.Inv() && !Marked(site.View()) && Resuming(site.View()) && ResumedBefore(site.View(), r)
      requires site.View().host.contained && ResumeRole(r) !in site.View().host.done
      modifies site`course, site`written, site`journal, site`world
      ensures site.Inv() && OnlyResumed(old(site.View()), site.View())
      ensures site.View().host.done == old(site.View()).host.done
      ensures o.Pass? ==> ResumeRole(r) in site.View().host.intents
      ensures site.View().host.drift == old(site.View()).host.drift
      ensures site.steady ==> !o.Killed?
      ensures site.terms.faithful ==> !o.Refused? && site.world == old(site.world)
    {
      hide SiteInv, Witnessed, Backed, Standing, ViewOf, ResumeCheck;
      if ResumeRole(r) in site.View().host.intents { return Pass; }
      var view: World;
      view :- ResumeObserve();
      if !CleanlyStopped(view.services.At(r)) { return Refused(NotCleanlyContained); }
      o := Intend(ResumeRole(r));
    }

    method ResumeOne(r: Role, allowDrift: bool) returns (o: Outcome<Code>)
      requires site.Inv() && !Marked(site.View()) && Resuming(site.View()) && ResumedBefore(site.View(), r)
      requires site.View().host.contained && site.View().host.settled.Some?
      modifies site`course, site`written, site`journal, site`world, site`trace
      ensures site.Inv() && OnlyResumed(old(site.View()), site.View())
      ensures o.Pass? ==> ResumeRole(r) in site.View().host.done
      ensures !allowDrift ==> site.View().host.drift == old(site.View()).host.drift
      ensures site.steady ==> !o.Killed?
      ensures site.terms.faithful ==> !o.Refused?
    {
      hide SiteInv, Witnessed, Backed, Standing, ViewOf, Site.Inv;
      if ResumeRole(r) in site.View().host.done { return Pass; }
      :- IntendRole(r);
      :- StartRole(r, allowDrift);
      :- EnableRole(r);
      o := ConfirmResumed(r);
    }

    method ResumeRoles(allowDrift: bool) returns (o: Outcome<Code>)
      requires site.Inv() && !Marked(site.View()) && Resuming(site.View())
      requires site.View().host.contained && site.View().host.settled.Some?
      modifies site`course, site`written, site`journal, site`world, site`trace
      ensures site.Inv() && OnlyResumed(old(site.View()), site.View())
      ensures o.Pass? ==> AllResumed(site.View())
      ensures !allowDrift ==> site.View().host.drift == old(site.View()).host.drift
      ensures site.steady ==> !o.Killed?
      ensures site.terms.faithful ==> !o.Refused?
    {
      hide SiteInv, Witnessed, Backed, Standing, ViewOf, Site.Inv;
      var i := 0;
      while i < 4
        invariant 0 <= i <= 4 && site.Inv() && OnlyResumed(old(site.View()), site.View())
        invariant !allowDrift ==> site.View().host.drift == old(site.View()).host.drift
        invariant forall q: Role :: StartRank(q) < i ==> ResumeRole(q) in site.View().host.done
      {
        :- ResumeOne(START_ORDER[i], allowDrift);
        i := i + 1;
      }
      return Pass;
    }

    method OpenEntriesOnce() returns (o: Outcome<Code>)
      requires site.Inv() && !Marked(site.View()) && Resuming(site.View()) && AllResumed(site.View())
      requires site.View().host.contained && OpenIngress !in site.View().host.done
      modifies site`course, site`written, site`journal, site`world, site`trace
      ensures site.Inv() && OnlyResumed(old(site.View()), site.View())
      ensures o.Pass? ==> OpenIngress in site.View().host.done
      ensures site.View().host.drift == old(site.View()).host.drift
      ensures site.steady ==> !o.Killed?
      ensures site.terms.faithful ==> !o.Refused?
    {
      hide SiteInv, Witnessed, Backed, Standing, ViewOf, ResumeCheck, Lawful, Recorded, DdlFree, Site.Inv;
      var view: World;
      if OpenIngress !in site.View().host.intents {
        view :- ResumeObserve();
        ResumeObservationMeans(site.View(), view);
        :- Intend(OpenIngress);
      }
      view :- ResumeObserve();
      if !view.OpenBoth() {
        :- SendOpen();
      }
      o := ConfirmOpen();
    }

    /** The opening itself, on a final observation. */
    method SendOpen() returns (o: Outcome<Code>)
      requires site.Inv() && !Marked(site.View()) && Resuming(site.View()) && AllResumed(site.View())
      requires site.View().host.contained && OpenIngress !in site.View().host.done
      requires OpenIngress in site.View().host.intents
      modifies site`course, site`world, site`trace
      ensures site.Inv()
      ensures site.steady ==> !o.Killed?
      ensures site.terms.faithful ==> !o.Refused? && (o.Pass? ==> site.world.OpenBoth())
    {
      hide SiteInv, Witnessed, Backed, Standing, ViewOf, ResumeCheck, Lawful, Recorded, DdlFree, Site.Inv;
      var view: World;
      view :- ResumeObserve();
      forall proof | DdlFree(site.terms.config, proof)
        ensures Lawful(site.terms.config, Emission(OpenEntries, site.journal, view, Some(proof), view, false, None))
        ensures Recorded(site.View(), OpenEntries)
      {
        OpenLawful(site.terms.config, site.journal, view, proof);
      }
      o := ResumeEffect(OpenEntries, view);
    }

    method ConfirmOpen() returns (o: Outcome<Code>)
      requires site.Inv() && !Marked(site.View()) && Resuming(site.View()) && AllResumed(site.View())
      requires site.View().host.contained && OpenIngress in site.View().host.intents
      modifies site`course, site`written, site`journal, site`world
      ensures site.Inv() && OnlyResumed(old(site.View()), site.View())
      ensures o.Pass? ==> OpenIngress in site.View().host.done
      ensures site.View().host.drift == old(site.View()).host.drift
      ensures site.steady ==> !o.Killed?
      ensures site.terms.faithful && old(site.world).OpenBoth() ==> !o.Refused?
    {
      hide SiteInv, Witnessed, Backed, Standing, ViewOf, ResumeCheck, Site.Inv;
      var view: World;
      view :- ResumeObserve();
      if !view.OpenBoth() { return Refused(IngressStillBlocked); }
      o := Receipt(OpenIngress, 0);
    }

    /** Every call, a replay of a finished resume included, re-proves the resumed host. */
    method ConfirmLegacy() returns (o: Outcome<Code>)
      requires site.Inv() && !Marked(site.View()) && Resuming(site.View()) && AllResumed(site.View())
      requires site.View().host.contained && OpenIngress in site.View().host.done
      modifies site`course, site`written, site`journal, site`world
      ensures site.Inv() && OnlyResumed(old(site.View()), site.View())
      ensures o.Pass? ==> site.View().host.resumed && LegacyBack(site.View(), site.world)
      ensures site.View().host.drift == old(site.View()).host.drift
      ensures site.steady ==> !o.Killed?
      ensures site.terms.faithful ==> !o.Refused?
    {
      hide SiteInv, Witnessed, Backed, Standing, ViewOf, ResumeCheck, Site.Inv;
      var view: World;
      view :- ResumeObserve();
      if !view.OpenBoth() { return Refused(IngressStillBlocked); }
      ResumeObservationMeans(site.View(), view);
      if site.View().host.resumed { return Pass; }
      o := site.Append(HostResumed);
    }

    /** What is asked before the first step: nothing was started, or it was started by an intended resume. */
    method BeginResume(allowDrift: bool) returns (o: Outcome<Code>)
      requires site.Inv() && !Marked(site.View()) && site.View().host.contained && site.View().host.settled.Some?
      modifies site`course, site`written, site`journal, site`world
      ensures site.Inv() && OnlyResumed(old(site.View()), site.View())
      ensures o.Pass? ==> Resuming(site.View())
      ensures o.Pass? && !Resuming(old(site.View())) ==>
                && AllCleanlyStopped(site.world)
                && QueueGated(site.View(), site.world)
                && (allowDrift || site.View().host.settled == Some(site.world.queue))
      ensures o.Pass? ==>
                && site.View().host.init.Some?
                && StartObservedCheck(old(site.View()), site.world).Pass?
      ensures !allowDrift ==> site.View().host.drift == old(site.View()).host.drift
      ensures site.steady ==> !o.Killed?
      ensures site.terms.faithful ==> !o.Refused?
    {
      hide SiteInv, Witnessed, Backed, Standing, ViewOf, ResumeCheck, StartObserved, StartObservedCheck,
        AllCleanlyStopped;
      var view: World;
      view :- ResumeObserve();
      :- StartObservedCheck(site.View(), view);
      if !StartObserved(site.View(), view) {
        if !AllCleanlyStopped(view) { return Refused(NotCleanlyContained); }
        :- QueueGate(view, allowDrift);
      } else if !Resuming(site.View()) {
        return Refused(NotContained);
      }
      o := Intend(LegacyResume);
    }

    /** Restores the contained legacy. Only before the marker, only from a containment, and with the
        token of the observed host on the first call; a replay continues where the last one stopped. */
    method ResumeLegacy(confirmation: int, expected: Option<int>, allowDrift: bool) returns (o: Outcome<Code>)
      requires site.Inv()
      modifies site`course, site`written, site`journal, site`world, site`trace
      ensures site.Inv() && OnlyResumed(old(site.View()), site.View())
      ensures var v := old(site.View());
              Marked(v) || !v.host.contained || v.host.init.None?
              || (expected.Some? && expected.value != v.host.init.value.fingerprint)
              || (!Resuming(v) && confirmation != v.host.init.value.fingerprint) ==>
                && o.Refused? && site.journal == old(site.journal) && site.trace == old(site.trace)
                && site.world == old(site.world)
      ensures var v := old(site.View());
              !Marked(v) && v.host.contained && v.host.init.Some?
              && ((expected.Some? && expected.value != v.host.init.value.fingerprint)
                  || (!Resuming(v) && confirmation != v.host.init.value.fingerprint)) ==>
                o == Refused(ResumeConfirmation)
      ensures var refusal := ResumeRefusal(old(site.View()), confirmation, expected);
              refusal.Some? ==> o == Refused(refusal.value) && site.journal == old(site.journal)
                                && site.trace == old(site.trace) && site.world == old(site.world)
      ensures o.Pass? ==> AllResumed(site.View()) && OpenIngress in site.View().host.done
                          && site.View().host.resumed && LegacyBack(site.View(), site.world)
      ensures !allowDrift ==> site.View().host.drift == old(site.View()).host.drift
      ensures site.steady ==> !o.Killed?
      ensures site.terms.faithful && site.steady ==>
                var v := old(site.View());
                (o.Pass? <==>
                  && !Marked(v) && v.host.contained && v.host.init.Some?
                  && (expected.Some? ==> expected.value == v.host.init.value.fingerprint)
                  && (Resuming(v) || confirmation == v.host.init.value.fingerprint))
    {
      hide SiteInv, Witnessed, Backed, Standing, ViewOf;
      SiteResumes(site.terms, site.journal, site.world, site.trace);
      if Marked(site.View()) { return Refused(PostDdlResumeForbidden); }
      if !site.View().host.contained { return Refused(Code.NotContained); }
      var token := site.View().host.init.value.fingerprint;
      if expected.Some? && expected.value != token { return Refused(ResumeConfirmation); }
      if !Resuming(site.View()) && confirmation != token { return Refused(ResumeConfirmation); }
      :- BeginResume(allowDrift);
      :- ResumeRoles(allowDrift);
      if OpenIngress !in site.View().host.done {
        :- OpenEntriesOnce();
      }
      o := ConfirmLegacy();
    }
  }

  /** Nothing is left to do for the roles before one that is stuck, nor for the ingress. */
  lemma FindStuck(t: Terms, j: seq<Event>, w: World, trace: seq<Emission>) returns (u: Role)
    requires SiteInv(t, j, w, trace)
    ensures Stuck(ViewOf(j), w) ==>
              && Undelivered(ViewOf(j), w, u)
              && ViewOf(j).host.init.Some? && Ingress in ViewOf(j).host.done && TermsDoneBefore(ViewOf(j), u)
  {
    u := Backend;
    if Stuck(ViewOf(j), w) {
      u :| Undelivered(ViewOf(j), w, u);
      TermsRest(t, j, w, trace, u);
    }
  }

  lemma SameStuck(v: View, v': View, w: World, w': World)
    requires forall q: Role :: (Term(q) in v.host.intents <==> Term(q) in v'.host.intents)
                               && (Term(q) in v.host.done <==> Term(q) in v'.host.done)
    ensures w'.services == w.services ==> (Stuck(v, w) <==> Stuck(v', w'))
  {
    if w'.services == w.services {
      assert forall q: Role :: Undelivered(v, w, q) <==> Undelivered(v', w', q);
    }
  }

  /** Once every stop is receipted a passed observation shows the settled queue over clean stops. */
  lemma SettledAllowed(v: View, w: World, t: Terms)
    requires AllTermsDone(v) && Ingress in v.host.done && !Resuming(v) && v.host.settled.None?
    requires v.host.init.Some? && HostFacts(v) && ContainObservation(v, w).Pass?
    ensures Justified(t.config, v, HostSettled(w.queue)) && Fits(t, v, w, HostSettled(w.queue))
    ensures forall course :: Shown(t.config, v, w, course, HostSettled(w.queue))
  {
    forall r: Role
      ensures CleanlyStopped(w.services.At(r)) && w.Blocked()
    {
      ObservationMeans(v, w, r);
      assert Term(r) in v.host.done && RestartNo(r) in v.host.done;
    }
  }

  lemma StuckNowhereElse(v: View, w: World, v': View, w': World, r: Role)
    requires Touched(v, v', {RestartNo(r), Term(r)})
    ensures Term(r) in v'.host.done && !Stuck(v, w)
            && (forall q: Role | q != r :: w'.services.At(q).running == w.services.At(q).running)
            ==> !Stuck(v', w')
    ensures forall q: Role :: Undelivered(v, w, q) ==> Stuck(v, w)
  {
    if !Stuck(v, w) && Term(r) in v'.host.done
       && forall q: Role | q != r :: w'.services.At(q).running == w.services.At(q).running {
      forall q: Role
        ensures !Undelivered(v', w', q)
      {
        assert !Undelivered(v, w, q);
      }
    }
  }

  /** However often it was interrupted, a faithful containment ends in one and the same state. */
  lemma SameContainedState(t: Terms, j: seq<Event>, w: World, trace: seq<Emission>)
    requires SiteInv(t, j, w, trace) && t.faithful && !Resuming(ViewOf(j)) && ViewOf(j).host.contained
    ensures HostOf(w) == HostOf(ContainedFrom(t.origin))
  {
    hide ViewOf, TraceInv, LedgerInv, StartsInv, CandidateFollows, DatabaseFollows, WindowFacts, StepFacts;
    var v := ViewOf(j);
    FactsHold(t.config, j);
    ResumeRests(v);
    assert Term(Backend) in v.host.done && RestartNo(Backend) in v.host.done;
    forall r: Role
      ensures w.services.At(r) == Contained(t.origin.services.At(r))
    {
      assert RoleFollows(v, t.origin.services.At(r), w.services.At(r), r);
      assert Term(r) in v.host.done && RestartNo(r) in v.host.done;
    }
    assert w.services.backend == w.services.At(Backend) && w.services.cron == w.services.At(Cron);
    assert w.services.broadcast == w.services.At(Broadcast) && w.services.queueWorker == w.services.At(QueueWorker);
  }

  lemma FaithfulSiteIsHealthy(t: Terms, j: seq<Event>, w: World, trace: seq<Emission>)
    requires SiteInv(t, j, w, trace) && ViewOf(j).host.init.None? && t.faithful
    ensures AllHealthy(w)
  {
    FactsHold(t.config, j);
    forall r: Role
      ensures w.services.At(r).running && w.services.At(r).always
    {
      assert RoleFollows(ViewOf(j), t.origin.services.At(r), w.services.At(r), r);
    }
  }

  /** A signal was only intended, and a stop only receipted, once the restart policy was receipted. */
  lemma TermsRest(t: Terms, j: seq<Event>, w: World, trace: seq<Emission>, r: Role)
    requires SiteInv(t, j, w, trace)
    ensures Term(r) in ViewOf(j).host.intents || Term(r) in ViewOf(j).host.done ==> RestartNo(r) in ViewOf(j).host.done
    ensures Term(r) in ViewOf(j).host.done ==> Term(r) in ViewOf(j).host.intents
    ensures Term(r) in ViewOf(j).host.intents ==>
              ViewOf(j).host.init.Some? && Ingress in ViewOf(j).host.done && TermsDoneBefore(ViewOf(j), r)
  {
    FactsHold(t.config, j);
  }

  lemma FaithfulSiteObserves(t: Terms, j: seq<Event>, w: World, trace: seq<Emission>)
    requires SiteInv(t, j, w, trace)
    ensures t.faithful && !Resuming(ViewOf(j)) ==> ContainObservation(ViewOf(j), w).Pass?
    ensures t.faithful && !Resuming(ViewOf(j)) && ViewOf(j).host.settled.Some? ==>
              && ViewOf(j).host.init.Some?
              && ContainedCheck(ViewOf(j), w).Pass?
  {
    hide ContainObservation, ContainedCheck, ViewOf, LedgerInv, StartsInv, StampsInv, DatabaseFollows,
      CandidateFollows, HostFollows, HostFacts, WindowFacts, StepFacts;
    FactsHold(t.config, j);
    if t.faithful && !Resuming(ViewOf(j)) {
      FaithfulObservation(ViewOf(j), t.origin, w);
      if ViewOf(j).host.settled.Some? {
        FaithfulContained(ViewOf(j), t.origin, w);
      }
    }
  }


  lemma NotYetSignalled(t: Terms, j: seq<Event>, w: World, trace: seq<Emission>, r: Role)
    requires SiteInv(t, j, w, trace) && Term(r) !in ViewOf(j).host.intents
    ensures forall e <- trace :: e.op != SignalTerm(r)
  {
    hide ViewOf, Lawful;
  }

  /** When a containment effect may be sent: its step is intended, everything before it is receipted. */
  ghost predicate ContainGrounds(j: seq<Event>, w: World, trace: seq<Emission>, op: Op) {
    var v := ViewOf(j);
    && v.host.init.Some? && !Resuming(v)
    && match op
       case BlockEntries => Ingress in v.host.intents && Ingress !in v.host.done
       case DisableRestart(r) =>
         w.Blocked() && Ingress in v.host.done && TermsDoneBefore(v, r)
         && RestartNo(r) in v.host.intents && RestartNo(r) !in v.host.done
       case SignalTerm(r) =>
         && w.Blocked() && !w.services.At(r).always && Ingress in v.host.done && TermsDoneBefore(v, r)
         && RestartNo(r) in v.host.done && Term(r) in v.host.intents && Term(r) !in v.host.done
         && j != [] && j[|j| - 1] == HostIntent(Term(r)) && forall e <- trace :: e.op != op
       case _ => false
  }

  /** What a containment effect leaves of a faithful host. */
  ghost predicate ContainReached(op: Op, w: World, w': World, passed: bool) {
    match op
    case BlockEntries => w'.services == w.services && (passed ==> w'.Blocked())
    case DisableRestart(r) =>
      && (forall q: Role :: w'.services.At(q).running == w.services.At(q).running)
      && (passed ==> !w'.services.At(r).always)
    case SignalTerm(r) =>
      && (forall q: Role | q != r :: w'.services.At(q) == w.services.At(q))
      && (passed ==> !w'.services.At(r).running)
    case _ => false
  }

  lemma ContainLawful(c: Config, j: seq<Event>, w: World, trace: seq<Emission>, op: Op)
    requires ContainGrounds(j, w, trace, op)
    ensures Lawful(c, Emission(op, j, w, None, w, false, None)) && Recorded(ViewOf(j), op) && !op.ApplyMigration?
    ensures forall e <- trace :: !Exclusive(e.op, op)
  {
    hide ViewOf, ResumeLawful;
  }

  lemma ReachedWhileContaining(c: Config, j: seq<Event>, trace: seq<Emission>, op: Op, w: World, w': World)
    requires ContainGrounds(j, w, trace, op)
    ensures Reached(c, op, w, w') ==> ContainReached(op, w, w', false)
    ensures w' == Deliver(c, op, w) ==> ContainReached(op, w, w', true)
  {
  }

  // -- what a resume rests on ---------------------------------------------------------

  /** A contained site has its baseline and settled queue, and a faithful one passes every observation. */
  lemma SiteResumes(t: Terms, j: seq<Event>, w: World, trace: seq<Emission>)
    requires SiteInv(t, j, w, trace)
    ensures HostFacts(ViewOf(j))
    ensures ViewOf(j).host.contained ==> ViewOf(j).host.init.Some? && ViewOf(j).host.settled.Some?
    ensures Resuming(ViewOf(j)) ==> ViewOf(j).host.contained
    ensures ViewOf(j).host.contained && t.faithful && !Marked(ViewOf(j)) ==>
              && ViewOf(j).host.init.Some? && ResumeCheck(ViewOf(j), w).Pass? && FollowsResume(ViewOf(j), w)
  {
    var v := ViewOf(j);
    FactsHold(t.config, j);
    if v.host.contained {
      assert AllTermsDone(v) && Term(Backend) in v.host.done;
      if t.faithful && !Marked(v) {
        FaithfulResumeObservation(v, t.origin, w);
        ResumeObservationMeans(v, w);
      }
    }
  }

  lemma FaithfulDatabaseIsBaseline(t: Terms, j: seq<Event>, w: World, trace: seq<Emission>)
    requires SiteInv(t, j, w, trace) && !Marked(ViewOf(j))
    ensures t.faithful ==> DdlFree(t.config, w.db)
  {
    FactsHold(t.config, j);
  }

  lemma NotMarkedOnceChecked(v: View, w: World)
    requires v.host.init.Some? && ResumeCheck(v, w).Pass?
    ensures !Marked(v)
  {
  }

  lemma DriftIrrelevantToRest(v: View, v': View, r: Role)
    requires OnlyDrifted(v, v')
    ensures Resuming(v') == Resuming(v) && Marked(v') == Marked(v) && ResumedBefore(v', r) == ResumedBefore(v, r)
    ensures v'.host.intents == v.host.intents && v'.host.done == v.host.done
  {
  }
}
