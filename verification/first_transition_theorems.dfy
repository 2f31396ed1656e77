/** What every journal the first transition can write satisfies, and the recovery report. */
module FirstTransitionTheorems {
  import opened Outcomes
  import opened Roles
  import opened FirstTransitionJournal

  /** Which entries of a view can only be there together with which others, and in what order. */
  ghost predicate Facts(c: Config, v: View, n: nat) {
    HostFacts(v) && WindowFacts(c, v, n) && StepFacts(c, v)
  }

  ghost predicate HostFacts(v: View) {
    && (forall s <- v.host.intents :: v.host.init.Some?)
    && (forall s <- v.host.done :: v.host.init.Some?)
    && (forall r: Role :: RestartNo(r) in v.host.done ==> RestartNo(r) in v.host.intents)
    && (forall r: Role :: RestartNo(r) in v.host.intents ==> Ingress in v.host.done && TermsDoneBefore(v, r))
    && (forall r: Role :: Term(r) in v.host.intents ==> RestartNo(r) in v.host.done)
    && (forall r: Role :: Term(r) in v.host.done ==> Term(r) in v.host.intents)
    && (v.host.settled.Some? ==> AllTermsDone(v))
    && (v.host.contained ==> v.host.settled.Some?)
    && (Resuming(v) ==> v.host.contained)
    && (forall r: Role :: ResumeRole(r) in v.host.intents ==> Resuming(v) && ResumedBefore(v, r))
    && (forall r: Role :: ResumeRole(r) in v.host.done ==> ResumeRole(r) in v.host.intents)
    && (forall r: Role :: ResumeRole(r) in v.host.done ==>
          v.host.done[ResumeRole(r)] != v.host.init.value.started.At(r))
    && (OpenIngress in v.host.intents ==> AllResumed(v))
    && (OpenIngress in v.host.done ==> OpenIngress in v.host.intents)
    && (v.host.resumed ==> OpenIngress in v.host.done)
    && (v.host.drift.Some? ==> v.host.contained)
    && LegacyResume !in v.host.done
  }

  ghost predicate WindowFacts(c: Config, v: View, n: nat) {
    && (v.window.init.Some? ==> v.window.init.value == c)
    && (v.window.quiescent.Some? ==>
          && v.host.contained && v.window.baseline && v.window.quiescent.value.at <= n
          && v.host.settled == Some(v.window.quiescent.value.queue)
          && v.host.init.Some? && v.host.init.value.fingerprint == v.window.quiescent.value.fingerprint)
    && (v.window.request.Some? ==>
          && v.window.quiescent == Some(v.window.request.value.of.quiescence)
          && v.window.quiescent.value.at < v.window.request.value.at <= n
          && v.window.request.value.of.config == c)
    && (v.window.backup.Some? ==>
          && v.window.request.Some? && v.window.request.value.at < v.window.backup.value.at <= n
          && v.window.backup.value.of.id.Some? && ValidReceipt(c, v.window.backup.value.of)
          && v.window.backup.value.of.request == Some(v.window.request.value.of))
    && (v.window.marker.Some? ==>
          && v.window.backup.Some? && v.window.backup.value.at < v.window.marker.value.at <= n
          && v.window.backup.value.of.id == Some(v.window.marker.value.of)
          && !Resuming(v))
  }

  ghost predicate StepFacts(c: Config, v: View) {
    && (forall s <- v.steps.intents :: Marked(v))
    && v.steps.done <= v.steps.intents
    && v.steps.applied <= |c.plan.pending|
    && (forall i: nat :: Apply(i) in v.steps.done <==> i < v.steps.applied)
    && (forall i: nat :: Apply(i) in v.steps.intents ==> i <= v.steps.applied && i < |c.plan.pending|)
    && (forall i: nat :: i in v.steps.failures ==> Open(v, Apply(i)))
    && (v.steps.migrated.Some? ==> Marked(v) && v.steps.applied == |c.plan.pending|)
    && (Layout in v.steps.intents ==> v.steps.migrated.Some?)
    && (CreateHeld in v.steps.intents ==> Layout in v.steps.done)
    && (StartBackend in v.steps.intents ==> CreateHeld in v.steps.done)
    && (CreateHeld in v.steps.done <==> v.steps.crew.Some?)
    && (StartBackend in v.steps.done <==> v.steps.backendStart.Some?)
    && (v.steps.complete ==> StartBackend in v.steps.done)
    && (v.steps.failed ==> Marked(v))
  }

  lemma HostFactsStep(c: Config, v: View, n: nat, e: Event)
    requires HostFacts(v) && Justified(c, v, e)
    ensures HostFacts(Record(v, n, e))
  {
  }

  lemma WindowFactsStep(c: Config, v: View, n: nat, e: Event)
    requires Facts(c, v, n) && Justified(c, v, e)
    ensures WindowFacts(c, Record(v, n + 1, e), n + 1)
  {
  }

  lemma StepFactsStep(c: Config, v: View, n: nat, e: Event)
    requires StepFacts(c, v) && Justified(c, v, e)
    ensures StepFacts(c, Record(v, n, e))
  {
    hide HostIntentAllowed, HostDoneAllowed, ValidReceipt, RecordHost, AllTermsDone;
    AppliedIsPrefix(c, v);
    hide AppliedBefore;
  }

  lemma AppliedIsPrefix(c: Config, v: View)
    requires StepFacts(c, v)
    ensures forall n: nat :: AppliedBefore(v, n) <==> n <= v.steps.applied
  {
    forall n: nat | n > v.steps.applied
      ensures !AppliedBefore(v, n)
    {
      assert Apply(v.steps.applied) !in v.steps.done;
    }
  }

  lemma NothingHolds(c: Config)
    ensures Facts(c, EMPTY, 0)
  {
  }

  lemma {:induction false} FactsHold(c: Config, j: seq<Event>)
    requires WellFormed(c, j)
    ensures Facts(c, ViewOf(j), |j|)
  {
    hide HostFacts, WindowFacts, StepFacts, Justified, Record;
    NothingHolds(c);
    if j != [] {
      var p, e := j[..|j| - 1], j[|j| - 1];
      FactsHold(c, p);
      var v := ViewOf(p);
      HostFactsStep(c, v, |j|, e);
      WindowFactsStep(c, v, |p|, e);
      StepFactsStep(c, v, |j|, e);
    }
  }

  /** A resume rests on a complete containment, and ingress is only opened in a resume. */
  lemma ResumeRests(v: View)
    requires HostFacts(v)
    ensures Resuming(v) ==>
              v.host.init.Some? && v.host.settled.Some? && Ingress in v.host.done
              && forall r: Role :: Term(r) in v.host.done && RestartNo(r) in v.host.done
    ensures OpenIngress in v.host.intents || OpenIngress in v.host.done || v.host.resumed ==>
              Resuming(v) && AllResumed(v)
    ensures forall r: Role :: ResumeRole(r) in v.host.intents || ResumeRole(r) in v.host.done ==> Resuming(v)
  {
    assert AllTermsDone(v) ==> Term(Backend) in v.host.done;
    assert RestartNo(Backend) in v.host.done ==> RestartNo(Backend) in v.host.intents;
    assert AllResumed(v) ==> ResumeRole(Backend) in v.host.done;
  }

  lemma {:induction false} PrefixWellFormed(c: Config, j: seq<Event>, n: nat)
    requires WellFormed(c, j) && n < |j|
    ensures WellFormed(c, j[..n]) && WellFormed(c, j[..n + 1]) && Justified(c, ViewOf(j[..n]), j[n])
    decreases |j|
  {
    assert j[..|j|] == j;
    if n + 1 < |j| {
      var p := j[..|j| - 1];
      assert p[..n] == j[..n] && p[..n + 1] == j[..n + 1];
      PrefixWellFormed(c, p, n);
    }
  }

  // -- the same, read off the journal's events -----------------------------------------

  /** The event of a window entry stands at its position, and no later event of its kind follows. */
  ghost predicate Located(j: seq<Event>, w: WindowView) {
    QuiescentLocated(j, w.quiescent) && RequestLocated(j, w.request) && BackupLocated(j, w.backup)
    && MarkerLocated(j, w.marker)
  }

  ghost predicate QuiescentLocated(j: seq<Event>, q: Option<Quiescence>) {
    if q.None? then forall e <- j :: !e.Quiescent?
    else
      && 0 < q.value.at <= |j| && j[q.value.at - 1] == Quiescent(q.value.fingerprint, q.value.queue)
      && forall i :: q.value.at <= i < |j| ==> !j[i].Quiescent?
  }

  ghost predicate RequestLocated(j: seq<Event>, r: Option<At<Request>>) {
    if r.None? then forall e <- j :: !e.BackupRequested?
    else 0 < r.value.at <= |j| && j[r.value.at - 1] == BackupRequested(r.value.of)
  }

  ghost predicate BackupLocated(j: seq<Event>, b: Option<At<Receipt>>) {
    if b.None? then forall e <- j :: !e.BackupReceived?
    else 0 < b.value.at <= |j| && j[b.value.at - 1] == BackupReceived(b.value.of)
  }

  ghost predicate MarkerLocated(j: seq<Event>, m: Option<At<int>>) {
    if m.None? then forall e <- j :: !e.DdlMarker?
    else 0 < m.value.at <= |j| && j[m.value.at - 1] == DdlMarker(m.value.of)
  }

  lemma QuiescentStep(p: seq<Event>, w: WindowView, e: Event)
    requires QuiescentLocated(p, w.quiescent)
    ensures QuiescentLocated(p + [e], RecordWindow(w, |p| + 1, e).quiescent)
  {
  }

  lemma RequestStep(p: seq<Event>, w: WindowView, e: Event)
    requires RequestLocated(p, w.request)
    ensures RequestLocated(p + [e], RecordWindow(w, |p| + 1, e).request)
  {
  }

  lemma BackupStep(p: seq<Event>, w: WindowView, e: Event)
    requires BackupLocated(p, w.backup)
    ensures BackupLocated(p + [e], RecordWindow(w, |p| + 1, e).backup)
  {
  }

  lemma MarkerStep(p: seq<Event>, w: WindowView, e: Event)
    requires MarkerLocated(p, w.marker)
    ensures MarkerLocated(p + [e], RecordWindow(w, |p| + 1, e).marker)
  {
  }

  lemma LocatedStep(p: seq<Event>, w: WindowView, e: Event)
    requires Located(p, w)
    ensures Located(p + [e], RecordWindow(w, |p| + 1, e))
  {
    hide QuiescentLocated, RequestLocated, BackupLocated, MarkerLocated, RecordWindow;
    QuiescentStep(p, w, e);
    RequestStep(p, w, e);
    BackupStep(p, w, e);
    MarkerStep(p, w, e);
  }

  lemma {:induction false} WindowIsLocated(j: seq<Event>)
    ensures Located(j, ViewOf(j).window)
  {
    if j != [] {
      var p := j[..|j| - 1];
      WindowIsLocated(p);
      LocatedStep(p, ViewOf(p).window, j[|j| - 1]);
      assert j == p + [j[|j| - 1]];
      hide Located, RecordWindow, RecordHost, RecordStep;
    }
  }

  /** Each kind of window event, the marker included, is written at most once; quiescence may be repeated
      until a backup is requested. */
  lemma {:induction false} WindowEventsOnce(c: Config, j: seq<Event>, i: nat, k: nat)
    requires WellFormed(c, j) && i < k < |j|
    ensures !(j[i].BackupRequested? && j[k].BackupRequested?)
    ensures !(j[i].BackupReceived? && j[k].BackupReceived?)
    ensures !(j[i].DdlMarker? && j[k].DdlMarker?)
    ensures !(j[i].BackupRequested? && j[k].Quiescent?)
  {
    var p := j[..|j| - 1];
    if k < |p| {
      WindowEventsOnce(c, p, i, k);
      assert p[i] == j[i] && p[k] == j[k];
    } else {
      WindowIsLocated(p);
      assert p[i] == j[i] && j[i] in p;
    }
  }

  /** A marker is bound to one window: a last quiescence, then the only request of the whole journal, then its
      receipt, which attests that request and names the backup the marker is bound to. */
  lemma MarkerIsBound(c: Config, j: seq<Event>, m: nat) returns (q: nat, k: nat, b: nat)
    requires WellFormed(c, j) && m < |j| && j[m].DdlMarker?
    ensures q < k < b < m && j[q].Quiescent? && j[k].BackupRequested? && j[b].BackupReceived?
    ensures forall i :: 0 <= i < |j| && j[i].BackupRequested? ==> i == k
    ensures forall i :: 0 <= i < |j| && j[i].BackupReceived? ==> i == b
    ensures forall i :: q < i < |j| ==> !j[i].Quiescent?
    ensures j[k].request.config == c && j[k].request.quiescence == Quiescence(q + 1, j[q].fingerprint, j[q].queue)
    ensures j[b].receipt.request == Some(j[k].request) && ValidReceipt(c, j[b].receipt)
    ensures j[b].receipt.id == Some(j[m].backup)
    ensures ViewOf(j).host.init.Some? && ViewOf(j).host.init.value.fingerprint == j[q].fingerprint
    ensures ViewOf(j).host.settled == Some(j[q].queue)
  {
    var w := ViewOf(j).window;
    FactsHold(c, j);
    WindowIsLocated(j);
    hide ValidReceipt, HostFacts, StepFacts, ViewOf;
    assert j[m] in j;
    q, k, b := w.quiescent.value.at - 1, w.request.value.at - 1, w.backup.value.at - 1;
    var m' := w.marker.value.at - 1;
    if m < m' { WindowEventsOnce(c, j, m, m'); }
    if m' < m { WindowEventsOnce(c, j, m', m); }
    forall i: nat | i < |j| && i != k ensures !j[i].BackupRequested? {
      WindowEventsOnce(c, j, if i < k then i else k, if i < k then k else i);
    }
    forall i: nat | i < |j| && i != b ensures !j[i].BackupReceived? {
      WindowEventsOnce(c, j, if i < b then i else b, if i < b then b else i);
    }
  }

  lemma {:induction false} HostIntentsAre(j: seq<Event>, s: HostStep)
    ensures s in ViewOf(j).host.intents <==> HostIntent(s) in j
  {
    if j != [] {
      HostIntentsAre(j[..|j| - 1], s);
      assert j == j[..|j| - 1] + [j[|j| - 1]];
    }
  }

  /** No journal holds both a marker and the intent to resume the legacy, in whatever order. */
  lemma MarkerExcludesLegacyResume(c: Config, j: seq<Event>, m: nat)
    requires WellFormed(c, j) && m < |j| && j[m].DdlMarker?
    ensures HostIntent(LegacyResume) !in j
  {
    FactsHold(c, j);
    HostIntentsAre(j, LegacyResume);
    WindowIsLocated(j);
    assert j[m] in j;
  }

  // -- the order of receipts ----------------------------------------------------------------

  /** The migrations receipted, in journal order. */
  ghost function Applied(j: seq<Event>): seq<Index> {
    if j == [] then []
    else
      var earlier, e := Applied(j[..|j| - 1]), j[|j| - 1];
      if e.Done? && e.step.Apply? then earlier + [e.step.index] else earlier
  }

  /** The migrations intended, in journal order. */
  ghost function Attempted(j: seq<Event>): seq<Index> {
    if j == [] then []
    else
      var earlier, e := Attempted(j[..|j| - 1]), j[|j| - 1];
      if e.Intent? && e.step.Apply? then earlier + [e.step.index] else earlier
  }

  ghost function FirstNumbers(n: nat): (s: seq<Index>)
    ensures |s| == n && forall i :: 0 <= i < n ==> s[i] == i
  {
    seq(n, i => i)
  }

  lemma MigrationEvent(c: Config, v: View, e: Event)
    requires StepFacts(c, v) && Justified(c, v, e)
    ensures e.Intent? && e.step.Apply? ==> e.step.index == v.steps.applied && e.step !in v.steps.intents
    ensures e.Done? && e.step.Apply? ==> e.step.index == v.steps.applied && e.step in v.steps.intents
  {
    AppliedIsPrefix(c, v);
  }

  /** Receipts are exactly a prefix of the pending migrations, each once and in order, and the intents are
      that prefix and at most the next one. */
  lemma {:induction false} MigrationsInOrder(c: Config, j: seq<Event>)
    requires WellFormed(c, j)
    ensures |Applied(j)| == ViewOf(j).steps.applied <= |c.plan.pending|
    ensures Applied(j) == FirstNumbers(|Applied(j)|)
    ensures Attempted(j) == Applied(j) || Attempted(j) == FirstNumbers(|Applied(j)| + 1)
    ensures Attempted(j) == Applied(j) <==> Apply(|Applied(j)|) !in ViewOf(j).steps.intents
  {
    hide HostFacts, WindowFacts, Justified, RecordHost, RecordWindow;
    FactsHold(c, j);
    if j != [] {
      var p, e := j[..|j| - 1], j[|j| - 1];
      MigrationsInOrder(c, p);
      FactsHold(c, p);
      MigrationEvent(c, ViewOf(p), e);
      var n := |Applied(p)|;
      assert FirstNumbers(n + 1) == FirstNumbers(n) + [n];
      hide WellFormed;
    }
  }

  /** The roles stopped, in journal order. */
  ghost function StoppedRoles(j: seq<Event>): seq<Role> {
    if j == [] then []
    else
      var earlier, e := StoppedRoles(j[..|j| - 1]), j[|j| - 1];
      if e.HostDone? && e.hostStep.Term? then earlier + [e.hostStep.role] else earlier
  }

  ghost function ResumedRoles(j: seq<Event>): seq<Role> {
    if j == [] then []
    else
      var earlier, e := ResumedRoles(j[..|j| - 1]), j[|j| - 1];
      if e.HostDone? && e.hostStep.ResumeRole? then earlier + [e.hostStep.role] else earlier
  }

  lemma NextStopped(v: View, stopped: seq<Role>, r: Role)
    requires stopped <= ROLES && TermsDoneBefore(v, r) && Term(r) !in v.host.done
    requires forall q: Role :: Term(q) in v.host.done <==> ContainRank(q) < |stopped|
    ensures stopped + [r] <= ROLES
    ensures forall q: Role :: q == r || Term(q) in v.host.done <==> ContainRank(q) < |stopped| + 1
  {
    assert ContainRank(ROLES[|stopped|]) == |stopped|;
  }

  lemma NextResumed(v: View, resumed: seq<Role>, r: Role)
    requires resumed <= START_ORDER && ResumedBefore(v, r) && ResumeRole(r) !in v.host.done
    requires forall q: Role :: ResumeRole(q) in v.host.done <==> StartRank(q) < |resumed|
    ensures resumed + [r] <= START_ORDER
    ensures forall q: Role :: q == r || ResumeRole(q) in v.host.done <==> StartRank(q) < |resumed| + 1
  {
    assert StartRank(START_ORDER[|resumed|]) == |resumed|;
  }

  /** Clean-exit receipts follow the containment order and resume receipts the start order, each once. */
  lemma {:induction false} RolesInOrder(c: Config, j: seq<Event>)
    requires WellFormed(c, j)
    ensures StoppedRoles(j) <= ROLES && ResumedRoles(j) <= START_ORDER
    ensures forall r: Role :: Term(r) in ViewOf(j).host.done <==> ContainRank(r) < |StoppedRoles(j)|
    ensures forall r: Role :: ResumeRole(r) in ViewOf(j).host.done <==> StartRank(r) < |ResumedRoles(j)|
  {
    if j != [] {
      var p, e := j[..|j| - 1], j[|j| - 1];
      RolesInOrder(c, p);
      if e.HostDone? && e.hostStep.Term? {
        NextStopped(ViewOf(p), StoppedRoles(p), e.hostStep.role);
      }
      if e.HostDone? && e.hostStep.ResumeRole? {
        NextResumed(ViewOf(p), ResumedRoles(p), e.hostStep.role);
      }
      hide Justified, RecordWindow, RecordStep, ContainRank, StartRank;
    }
  }
}
