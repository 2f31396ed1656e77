/** The judgements the host contract passes on one observation, given what is journaled. */
module FirstTransitionHostChecks {
  import opened Outcomes
  import opened Roles
  import opened FirstTransitionJournal
  import opened FirstTransitionTheorems
  import opened FirstTransitionSite

  /** The roles are judged in order; the first that does not pass decides. */
  function EachRole(backend: Outcome<Code>, cron: Outcome<Code>, broadcast: Outcome<Code>,
                    queueWorker: Outcome<Code>): (o: Outcome<Code>)
    ensures o.Pass? <==> backend.Pass? && cron.Pass? && broadcast.Pass? && queueWorker.Pass?
    ensures o in [backend, cron, broadcast, queueWorker]
  {
    Then(backend, Then(cron, Then(broadcast, queueWorker)))
  }

  /** A role not intended to resume keeps its baseline start; a receipted one keeps its fresh start. */
  function RoleCheck(v: View, w: World, r: Role): (o: Outcome<Code>)
    requires v.host.init.Some?
    ensures !o.Killed?
  {
    var s, i := w.services.At(r), v.host.init.value;
    if ResumeRole(r) !in v.host.intents && (s.started != i.started.At(r) || s.restarts != i.restarts.At(r)) then
      Refused(IdentityChanged)
    else if ResumeRole(r) in v.host.done
            && !(s.running && s.always && s.restarts == 0 && s.started == v.host.done[ResumeRole(r)]) then
      Refused(ResumedStateChanged)
    else
      Pass
  }

  function SnapshotCheck(v: View, w: World): (o: Outcome<Code>)
    ensures !o.Killed?
  {
    if w.writers != 0 then Refused(UnknownWriter)
    else if v.host.init.None? then Pass
    else if w.fingerprint != v.host.init.value.fingerprint then Refused(IdentityChanged)
    else EachRole(RoleCheck(v, w, Backend), RoleCheck(v, w, Cron), RoleCheck(v, w, Broadcast),
                  RoleCheck(v, w, QueueWorker))
  }

  // -- containment -------------------------------------------------------------------

  function ContainRoleCheck(v: View, w: World, r: Role): (o: Outcome<Code>)
    ensures !o.Killed?
  {
    var s := w.services.At(r);
    if RestartNo(r) !in v.host.intents && !s.always then Refused(UnintendedPolicy)
    else if RestartNo(r) in v.host.done && s.always then Refused(RestartReenabled)
    else if Term(r) !in v.host.intents && !s.running then Refused(UnintendedStop)
    else if Term(r) in v.host.intents && !s.running && s.exit != 0 then Refused(ExitNotClean)
    else if Term(r) in v.host.done && s.running then Refused(Restarted)
    else Pass
  }

  /** Every role and the ingress stand where the journal left them while containing. */
  function ContainCheck(v: View, w: World): (o: Outcome<Code>)
    ensures !o.Killed?
  {
    if Resuming(v) then Refused(ResumeStarted)
    else Then(SnapshotCheck(v, w),
              if Ingress in v.host.done && !w.Blocked() then Refused(IngressReopened)
              else EachRole(ContainRoleCheck(v, w, Backend), ContainRoleCheck(v, w, Cron),
                            ContainRoleCheck(v, w, Broadcast), ContainRoleCheck(v, w, QueueWorker)))
  }

  /** The observation a containment step starts from: the phase is judged once there is a baseline. */
  function ContainObservation(v: View, w: World): (o: Outcome<Code>)
    ensures !o.Killed?
  {
    Then(SnapshotCheck(v, w), if v.host.init.Some? then ContainCheck(v, w) else Pass)
  }

  /** What `assert_contained` asks of the journal and of one observation. */
  function ContainedCheck(v: View, w: World): (o: Outcome<Code>)
    ensures !o.Killed?
  {
    if Resuming(v) then Refused(ResumeStarted)
    else if v.host.init.None? || v.host.settled.None? then Refused(Unobserved)
    else Then(ContainObservation(v, w),
              if !w.Blocked() then Refused(IngressOpen)
              else if !AllCleanlyStopped(w) then Refused(NotCleanlyContained)
              else if w.queue != v.host.settled.value then Refused(QueueDrift)
              else Pass)
  }

  /** A signal was intended and not receipted, and its container still runs. */
  predicate Undelivered(v: View, w: World, r: Role) {
    Term(r) in v.host.intents && Term(r) !in v.host.done && w.services.At(r).running
  }

  ghost predicate Stuck(v: View, w: World) {
    exists r: Role :: Undelivered(v, w, r)
  }

  lemma FaithfulObservation(v: View, o: World, w: World)
    requires HostFacts(v) && HostFollows(v, o, w) && !Resuming(v)
    ensures ContainObservation(v, w).Pass?
  {
    forall r: Role
      ensures ContainRoleCheck(v, w, r).Pass?
      ensures v.host.init.Some? ==> RoleCheck(v, w, r).Pass?
    {
      assert RoleFollows(v, o.services.At(r), w.services.At(r), r);
      assert ResumeRole(r) !in v.host.intents;
    }
    assert OpenIngress !in v.host.intents by {
      assert OpenIngress in v.host.intents ==> ResumeRole(Backend) in v.host.done;
    }
  }

  lemma FaithfulContained(v: View, o: World, w: World)
    requires HostFacts(v) && HostFollows(v, o, w) && !Resuming(v) && v.host.settled.Some?
    ensures v.host.init.Some? && v.host.settled.Some? && ContainedCheck(v, w).Pass?
  {
    assert v.host.settled.Some? && AllTermsDone(v);
    assert Term(Backend) in v.host.done;
    FaithfulObservation(v, o, w);
    forall r: Role
      ensures CleanlyStopped(w.services.At(r))
    {
      assert RoleFollows(v, o.services.At(r), w.services.At(r), r);
      assert Term(r) in v.host.done && RestartNo(r) in v.host.done;
    }
  }

  /** What a passed containment observation says about the ingress and one role. */
  lemma ObservationMeans(v: View, w: World, r: Role)
    requires ContainObservation(v, w).Pass?
    ensures w.writers == 0
    ensures v.host.init.Some? ==>
      && !Resuming(v)
      && (Ingress in v.host.done ==> w.Blocked())
      && (RestartNo(r) !in v.host.intents ==> w.services.At(r).always)
      && (RestartNo(r) in v.host.done ==> !w.services.At(r).always)
      && (Term(r) !in v.host.intents ==> w.services.At(r).running)
      && (Term(r) in v.host.intents && !w.services.At(r).running ==> w.services.At(r).exit == 0)
      && (Term(r) in v.host.done ==> !w.services.At(r).running)
  {
    assert v.host.init.Some? ==> ContainRoleCheck(v, w, r).Pass?;
  }

  lemma ContainedCheckMeans(v: View, w: World)
    ensures ContainedCheck(v, w).Pass? ==> ContainedNow(v, w)
  {
  }

  // -- resume ------------------------------------------------------------------------

  /** What any observation during a resume must show of one role. */
  function ResumeRoleCheck(v: View, w: World, r: Role): (o: Outcome<Code>)
    requires v.host.init.Some?
    ensures !o.Killed?
  {
    var s := w.services.At(r);
    if ResumeRole(r) in v.host.done then Pass
    else if ResumeRole(r) !in v.host.intents then
      if s.running then Refused(ResumeNotFresh)
      else Require(CleanlyStopped(s), NotCleanlyContained)
    else if s.running then Require(FreshlyRunning(v, w, r), ResumeNotFresh)
    else Require(StoppedAsContained(v, w, r), ResumeNotFresh)
  }

  function ResumeCheck(v: View, w: World): (o: Outcome<Code>)
    requires v.host.init.Some?
    ensures !o.Killed?
  {
    if Marked(v) then Refused(PostDdlResumeForbidden)
    else Then(SnapshotCheck(v, w),
         Then(EachRole(ResumeRoleCheck(v, w, Backend), ResumeRoleCheck(v, w, Cron),
                       ResumeRoleCheck(v, w, Broadcast), ResumeRoleCheck(v, w, QueueWorker)),
              Require(OpenIngress in v.host.intents || w.Blocked(), IngressOpen)))
  }

  function StartObservedRoleCheck(v: View, w: World, r: Role): (o: Outcome<Code>)
    requires v.host.init.Some?
    ensures !o.Killed?
  {
    Require(Moved(v, w, r) ==> ResumeRole(r) in v.host.intents && FreshlyRunning(v, w, r), ResumeNotFresh)
  }

  function StartObservedCheck(v: View, w: World): (o: Outcome<Code>)
    requires v.host.init.Some?
    ensures !o.Killed?
  {
    EachRole(StartObservedRoleCheck(v, w, Backend), StartObservedRoleCheck(v, w, Cron),
             StartObservedRoleCheck(v, w, Broadcast), StartObservedRoleCheck(v, w, QueueWorker))
  }

  /** Only a container that was never started may be started. */
  function StartCheck(v: View, w: World, r: Role): (o: Outcome<Code>)
    requires v.host.init.Some?
    ensures !o.Killed?
  {
    Then(Require(StoppedAsContained(v, w, r), ResumeNotFresh), StartObservedCheck(v, w))
  }

  lemma FaithfulResumeObservation(v: View, o: World, w: World)
    requires HostFacts(v) && HostFollows(v, o, w) && v.host.contained && !Marked(v)
    ensures v.host.init.Some? && v.host.settled == Some(w.queue)
    ensures ResumeCheck(v, w).Pass? && StartObservedCheck(v, w).Pass?
    ensures !Resuming(v) ==> AllCleanlyStopped(w) && !StartObserved(v, w)
    ensures forall r: Role :: (ResumeRole(r) in v.host.intents && ResumeRole(r) !in v.host.done
                               && !w.services.At(r).running) ==> StoppedAsContained(v, w, r)
    ensures forall r: Role :: ResumeRole(r) in v.host.intents && w.services.At(r).running ==> FreshlyRunning(v, w, r)
  {
    assert AllTermsDone(v) && Term(Backend) in v.host.done;
    assert RestartNo(Backend) in v.host.done && RestartNo(Backend) in v.host.intents;
    ResumeRests(v);
    forall r: Role
      ensures RoleCheck(v, w, r).Pass? && ResumeRoleCheck(v, w, r).Pass? && StartObservedRoleCheck(v, w, r).Pass?
      ensures !Resuming(v) ==> CleanlyStopped(w.services.At(r)) && !Moved(v, w, r) && ResumeRole(r) !in v.host.done
      ensures (ResumeRole(r) in v.host.intents && ResumeRole(r) !in v.host.done
               && !w.services.At(r).running) ==> StoppedAsContained(v, w, r)
      ensures ResumeRole(r) in v.host.intents && w.services.At(r).running ==> FreshlyRunning(v, w, r)
    {
      assert RoleFollows(v, o.services.At(r), w.services.At(r), r);
      assert Term(r) in v.host.done && RestartNo(r) in v.host.done;
      assert ResumeRole(r) in v.host.done ==> ResumeRole(r) in v.host.intents;
    }
  }

  /** What a passed resume observation says. */
  lemma ResumeObservationMeans(v: View, w: World)
    requires v.host.init.Some? && HostFacts(v) && ResumeCheck(v, w).Pass?
    ensures !Marked(v) && w.writers == 0 && w.fingerprint == v.host.init.value.fingerprint
    ensures OpenIngress !in v.host.intents ==> w.Blocked()
    ensures forall r: Role :: ResumeRole(r) in v.host.done ==>
              FreshlyRunning(v, w, r) && w.services.At(r).always
              && w.services.At(r).started == v.host.done[ResumeRole(r)]
    ensures forall r: Role :: ResumeRole(r) !in v.host.intents && ResumeRole(r) !in v.host.done ==>
              CleanlyStopped(w.services.At(r))
    ensures forall r: Role :: RolePhase(v, w, r)
  {
    forall r: Role
      ensures ResumeRole(r) in v.host.done ==>
                FreshlyRunning(v, w, r) && w.services.At(r).always
                && w.services.At(r).started == v.host.done[ResumeRole(r)]
      ensures ResumeRole(r) !in v.host.intents && ResumeRole(r) !in v.host.done ==> CleanlyStopped(w.services.At(r))
      ensures RolePhase(v, w, r)
    {
      assert RoleCheck(v, w, r).Pass? && ResumeRoleCheck(v, w, r).Pass?;
    }
  }

  // -- when a resume effect is lawful --------------------------------------------------

  /** What every resume effect rests on: the guard passed on the final observation, and the request that
      sends the effect has proved the database afresh. */
  ghost predicate ResumeGrounds(c: Config, v: View, w: World, proof: Database) {
    && v.host.init.Some? && HostFacts(v) && v.host.contained && Resuming(v)
    && ResumeCheck(v, w).Pass? && DdlFree(c, proof)
  }

  lemma DriftIrrelevantForRole(v: View, v': View, w: World, r: Role)
    requires v' == v.(host := v.host.(drift := v'.host.drift)) && v.host.init.Some?
    ensures RoleCheck(v', w, r) == RoleCheck(v, w, r) && ResumeRoleCheck(v', w, r) == ResumeRoleCheck(v, w, r)
    ensures Moved(v', w, r) == Moved(v, w, r) && StoppedAsContained(v', w, r) == StoppedAsContained(v, w, r)
  {
  }

  /** An accepted drift does not change what an observation is judged by. */
  lemma DriftIrrelevant(v: View, v': View, w: World)
    requires v' == v.(host := v.host.(drift := v'.host.drift)) && v.host.init.Some?
    ensures ResumeCheck(v', w) == ResumeCheck(v, w)
    ensures StartObserved(v', w) == StartObserved(v, w)
    ensures forall r: Role :: StoppedAsContained(v', w, r) == StoppedAsContained(v, w, r)
  {
    hide RoleCheck, ResumeRoleCheck, EachRole, Moved, StoppedAsContained;
    forall r: Role
      ensures RoleCheck(v', w, r) == RoleCheck(v, w, r) && ResumeRoleCheck(v', w, r) == ResumeRoleCheck(v, w, r)
      ensures Moved(v', w, r) == Moved(v, w, r) && StoppedAsContained(v', w, r) == StoppedAsContained(v, w, r)
    {
      DriftIrrelevantForRole(v, v', w, r);
    }
  }

  /** Before the first start nothing else was started, so its queue gate was not skipped. */
  lemma FirstStartIsGated(v: View, w: World)
    requires v.host.init.Some? && HostFacts(v) && ResumeCheck(v, w).Pass?
    requires ResumeRole(Backend) !in v.host.done && StoppedAsContained(v, w, Backend)
    ensures !StartObserved(v, w)
  {
    ResumeObservationMeans(v, w);
    forall q: Role
      ensures ResumeRole(q) !in v.host.done && !Moved(v, w, q)
    {
      if q != Backend {
        assert StartRank(Backend) < StartRank(q);
        assert ResumeRole(q) !in v.host.intents && ResumeRole(q) !in v.host.done;
        assert RoleCheck(v, w, q).Pass?;
      }
    }
  }

  lemma StartLawful(c: Config, j: seq<Event>, w: World, proof: Database, r: Role)
    requires ResumeGrounds(c, ViewOf(j), w, proof) && ResumedBefore(ViewOf(j), r)
    requires ResumeRole(r) in ViewOf(j).host.intents && ResumeRole(r) !in ViewOf(j).host.done
    requires StoppedAsContained(ViewOf(j), w, r)
    requires StartObserved(ViewOf(j), w) || QueueGated(ViewOf(j), w)
    ensures Lawful(c, Emission(StartService(r), j, w, Some(proof), w, false, None))
    ensures Recorded(ViewOf(j), StartService(r))
  {
    var v := ViewOf(j);
    ResumeObservationMeans(v, w);
    if r == Backend {
      FirstStartIsGated(v, w);
    }
    hide ViewOf, ResumeCheck, StartObserved, DdlFree;
    assert OpenIngress !in v.host.intents by {
      assert OpenIngress in v.host.intents ==> AllResumed(v);
    }
  }

  lemma EnableLawful(c: Config, j: seq<Event>, w: World, proof: Database, r: Role)
    requires ResumeGrounds(c, ViewOf(j), w, proof)
    requires ResumeRole(r) in ViewOf(j).host.intents && FreshlyRunning(ViewOf(j), w, r)
    ensures Lawful(c, Emission(EnableRestart(r), j, w, Some(proof), w, false, None))
    ensures Recorded(ViewOf(j), EnableRestart(r))
  {
    ResumeObservationMeans(ViewOf(j), w);
    hide ViewOf, ResumeCheck, DdlFree;
  }

  lemma OpenLawful(c: Config, j: seq<Event>, w: World, proof: Database)
    requires ResumeGrounds(c, ViewOf(j), w, proof)
    requires AllResumed(ViewOf(j)) && OpenIngress in ViewOf(j).host.intents && OpenIngress !in ViewOf(j).host.done
    ensures Lawful(c, Emission(OpenEntries, j, w, Some(proof), w, false, None))
    ensures Recorded(ViewOf(j), OpenEntries)
  {
    ResumeObservationMeans(ViewOf(j), w);
    hide ViewOf, ResumeCheck, DdlFree;
  }
}
