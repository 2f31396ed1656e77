/** The recovery report: an objective classification of the journal, and what it may be trusted for. */
module FirstTransitionRecovery {
  import opened Outcomes
  import opened Roles
  import opened FirstTransitionJournal
  import opened FirstTransitionTheorems
  import opened FirstTransitionSite
  import opened FirstTransitionInvariant
  import opened FirstTransitionHostContract

  datatype State = NotStarted | ContainmentPartial | ContainedPreDdl | BackupWindowUsed | ResumePartial
                 | LegacyResumed | DdlAmbiguous | DdlFailed | PostDdlFailed | CandidateAmbiguous | CandidateFailed
                 | A9Complete

  datatype Report = Report(state: State, openSteps: seq<Step>, legacyAllowed: bool, windowBackup: Option<int>)

  /** The steps intended in j that the view knows no receipt of, in the order they were intended. */
  function OpenSteps(j: seq<Event>, v: View): seq<Step> {
    if j == [] then []
    else
      var earlier, e := OpenSteps(j[..|j| - 1], v), j[|j| - 1];
      if e.Intent? && Open(v, e.step) then earlier + [e.step] else earlier
  }

  function Migrations(steps: seq<Step>): seq<Step> {
    if steps == [] then []
    else
      var earlier, s := Migrations(steps[..|steps| - 1]), steps[|steps| - 1];
      if s.Apply? then earlier + [s] else earlier
  }

  /** Where a journal that holds a marker stands; `migrations` are the open ones. */
  function AfterMarkerState(v: View, open: seq<Step>): State {
    var migrations := Migrations(open);
    if migrations != [] then
      var last := migrations[|migrations| - 1];
      if last.Apply? && last.index in v.steps.failures && v.steps.failures[last.index] then DdlFailed else DdlAmbiguous
    else if CreateHeld in open || StartBackend in open then CandidateAmbiguous
    else if Layout in v.steps.done && v.steps.failed then CandidateFailed
    else PostDdlFailed
  }

  function StateOf(v: View, open: seq<Step>): State {
    if v.steps.complete && !v.steps.failed then A9Complete
    else if Marked(v) then AfterMarkerState(v, open)
    else if v.host.resumed then LegacyResumed
    else if Resuming(v) then ResumePartial
    else if v.window.request.Some? then BackupWindowUsed
    else if v.host.contained then ContainedPreDdl
    else if v.host.intents != {} then ContainmentPartial
    else NotStarted
  }

  function Recovery(j: seq<Event>): Report {
    var v := ViewOf(j);
    var open := OpenSteps(j, v);
    var state := StateOf(v, open);
    Report(state, open, state in {ContainedPreDdl, BackupWindowUsed, ResumePartial},
           if Marked(v) then Some(v.window.marker.value.of) else None)
  }

  lemma {:induction false} OpenStepsAre(j: seq<Event>, v: View, s: Step)
    ensures s in OpenSteps(j, v) <==> Intent(s) in j && Open(v, s)
  {
    if j != [] {
      OpenStepsAre(j[..|j| - 1], v, s);
      assert j == j[..|j| - 1] + [j[|j| - 1]];
    }
  }

  lemma {:induction false} IntentsAre(j: seq<Event>, s: Step)
    ensures s in ViewOf(j).steps.intents <==> Intent(s) in j
  {
    if j != [] {
      IntentsAre(j[..|j| - 1], s);
      assert j == j[..|j| - 1] + [j[|j| - 1]];
    }
  }

  /** The open steps reported are exactly the intents without a receipt. */
  lemma OpenStepsExact(j: seq<Event>, s: Step)
    ensures s in Recovery(j).openSteps <==> Open(ViewOf(j), s)
  {
    OpenStepsAre(j, ViewOf(j), s);
    IntentsAre(j, s);
  }

  lemma {:induction false} MigrationsAre(steps: seq<Step>)
    ensures forall s :: s in Migrations(steps) <==> s in steps && s.Apply?
  {
    if steps != [] {
      MigrationsAre(steps[..|steps| - 1]);
      assert steps == steps[..|steps| - 1] + [steps[|steps| - 1]];
    }
  }

  /** Whatever the journal, one with a marker is never reported as resumable. */
  lemma NeverResumableOnceMarked(j: seq<Event>)
    ensures Marked(ViewOf(j)) ==> !Recovery(j).legacyAllowed
  {
    var v := ViewOf(j);
    MigrationsAre(OpenSteps(j, v));
  }

  /** A legacy resume is reported as allowed exactly when the host is contained, nothing was marked and
      the legacy is not back yet; then the guards of the resume accept the token of the observed host. */
  lemma RecoveryIsSound(c: Config, j: seq<Event>)
    requires WellFormed(c, j)
    ensures Recovery(j).legacyAllowed <==>
              ViewOf(j).host.contained && !Marked(ViewOf(j)) && !ViewOf(j).host.resumed
    ensures Recovery(j).legacyAllowed ==>
              && ViewOf(j).host.init.Some? && ViewOf(j).steps.intents == {}
              && ResumeRefusal(ViewOf(j), ViewOf(j).host.init.value.fingerprint, None).None?
    ensures Recovery(j).windowBackup.Some? ==>
              && ViewOf(j).window.backup.Some?
              && ViewOf(j).window.backup.value.of.id == Recovery(j).windowBackup
  {
    var v := ViewOf(j);
    FactsHold(c, j);
    NeverResumableOnceMarked(j);
    ResumeRests(v);
    assert v.host.contained ==> Term(Backend) in v.host.done;
    assert v.host.contained ==> RestartNo(Backend) in v.host.done && RestartNo(Backend) in v.host.intents;
    hide ViewOf, OpenSteps, AfterMarkerState;
  }

  /** After the marker at most the migration after the receipted ones is open, and then nothing later is. */
  lemma OpenAfterMarker(c: Config, v: View)
    requires StepFacts(c, v)
    ensures forall i: nat :: Open(v, Apply(i)) ==>
              i == v.steps.applied && v.steps.migrated.None? && Layout !in v.steps.intents
    ensures Open(v, Apply(v.steps.applied)) ==> !Open(v, CreateHeld) && !Open(v, StartBackend) && !v.steps.complete
    ensures v.steps.complete ==> !Open(v, CreateHeld) && !Open(v, StartBackend)
  {
  }

  lemma LastMigration(open: seq<Step>, i: nat)
    requires forall s <- open :: s.Apply? ==> s.index == i
    ensures Migrations(open) != [] <==> Apply(i) in open
    ensures Migrations(open) != [] ==> Migrations(open)[|Migrations(open)| - 1] == Apply(i)
  {
    MigrationsAre(open);
    var m := Migrations(open);
    if m != [] {
      assert m[|m| - 1] in m;
    }
  }

  /** What the report says about the steps after the marker. */
  lemma RecoveryAfterMarker(c: Config, j: seq<Event>)
    requires WellFormed(c, j) && Marked(ViewOf(j))
    ensures (Recovery(j).state == DdlAmbiguous || Recovery(j).state == DdlFailed)
            <==> Open(ViewOf(j), Apply(ViewOf(j).steps.applied))
    ensures Recovery(j).state == DdlFailed ==>
              ViewOf(j).steps.applied in ViewOf(j).steps.failures && ViewOf(j).steps.failures[ViewOf(j).steps.applied]
    ensures Recovery(j).state == CandidateAmbiguous
            <==> Open(ViewOf(j), CreateHeld) || Open(ViewOf(j), StartBackend)
    ensures Recovery(j).state == A9Complete ==> forall s :: s in Recovery(j).openSteps ==> s.Layout?
  {
    hide ViewOf, OpenSteps, Migrations, WellFormed;
    var v := ViewOf(j);
    FactsHold(c, j);
    OpenAfterMarker(c, v);
    hide HostFacts, WindowFacts, StepFacts;
    var open := OpenSteps(j, v);
    forall s ensures s in open <==> Open(v, s) { OpenStepsExact(j, s); }
    LastMigration(open, v.steps.applied);
  }

  // -- the states, read off the events ---------------------------------------------------------------

  predicate Receipted(j: seq<Event>, s: Step) {
    || Done(s) in j
    || (s.CreateHeld? && exists e <- j :: e.CandidateCreated?)
    || (s.StartBackend? && exists e <- j :: e.BackendStarted?)
  }

  /** Intended in the journal, and never receipted. */
  predicate LeftOpen(j: seq<Event>, s: Step) {
    Intent(s) in j && !Receipted(j, s)
  }

  ghost predicate MigrationLeftOpen(j: seq<Event>) {
    exists i: nat :: LeftOpen(j, Apply(i))
  }

  /** The failure recorded of an open migration is definite. */
  ghost predicate FailedDefinitely(j: seq<Event>) {
    exists i: nat, f :: LeftOpen(j, Apply(i)) && StepFailed(i, f, true) in j
  }

  ghost predicate CandidateLeftOpen(j: seq<Event>) {
    LeftOpen(j, CreateHeld) || LeftOpen(j, StartBackend)
  }

  ghost predicate MarkerIn(j: seq<Event>) {
    exists e <- j :: e.DdlMarker?
  }

  ghost predicate RequestIn(j: seq<Event>) {
    exists e <- j :: e.BackupRequested?
  }

  ghost predicate ContainedIn(j: seq<Event>) {
    exists e <- j :: e.HostContained?
  }

  ghost predicate HostIntentIn(j: seq<Event>) {
    exists e <- j :: e.HostIntent?
  }

  lemma InOneMore(p: seq<Event>, last: Event)
    ensures forall e :: e in p + [last] <==> e in p || e == last
    ensures MarkerIn(p + [last]) <==> MarkerIn(p) || last.DdlMarker?
    ensures RequestIn(p + [last]) <==> RequestIn(p) || last.BackupRequested?
    ensures ContainedIn(p + [last]) <==> ContainedIn(p) || last.HostContained?
    ensures HostIntentIn(p + [last]) <==> HostIntentIn(p) || last.HostIntent?
    ensures forall s :: Receipted(p + [last], s) <==>
              || Receipted(p, s) || last == Done(s)
              || (s.CreateHeld? && last.CandidateCreated?) || (s.StartBackend? && last.BackendStarted?)
  {
    var j := p + [last];
    forall e ensures e in j <==> e in p || e == last {}
  }

  /** What is looked up is there exactly when an event of the journal says so. */
  ghost predicate LookedUp(j: seq<Event>, v: View) {
    && (v.steps.complete <==> Complete in j) && (v.steps.failed <==> Failed in j)
    && (Marked(v) <==> MarkerIn(j)) && (v.window.request.Some? <==> RequestIn(j))
    && (v.host.resumed <==> HostResumed in j) && (v.host.contained <==> ContainedIn(j))
    && (forall s :: s in v.host.intents <==> HostIntent(s) in j) && (v.host.intents != {} <==> HostIntentIn(j))
    && (forall s :: s in v.steps.intents <==> Intent(s) in j)
    && (forall s :: s in v.steps.done <==> Receipted(j, s))
  }

  lemma LookedUpStep(p: seq<Event>, v: View, last: Event)
    requires LookedUp(p, v)
    ensures LookedUp(p + [last], Record(v, |p| + 1, last))
  {
    InOneMore(p, last);
    hide MarkerIn, RequestIn, ContainedIn, HostIntentIn, Receipted;
  }

  lemma {:induction false} EventsAre(j: seq<Event>)
    ensures LookedUp(j, ViewOf(j))
  {
    if j != [] {
      EventsAre(j[..|j| - 1]);
      LookedUpStep(j[..|j| - 1], ViewOf(j[..|j| - 1]), j[|j| - 1]);
      assert j == j[..|j| - 1] + [j[|j| - 1]];
      hide LookedUp, Record;
    }
  }

  /** The failures known are those recorded, each migration's recorded once. */
  ghost predicate FailuresKnown(j: seq<Event>, failures: map<nat, bool>) {
    && (forall i, f, d :: StepFailed(i, f, d) in j ==> i in failures && failures[i] == d)
    && (forall i <- failures :: exists f :: StepFailed(i, f, failures[i]) in j)
  }

  lemma FailuresStep(p: seq<Event>, failures: map<nat, bool>, last: Event)
    requires FailuresKnown(p, failures) && (last.StepFailed? ==> last.index !in failures)
    ensures FailuresKnown(p + [last], if last.StepFailed? then failures[last.index := last.definite] else failures)
  {
    var j, after := p + [last], if last.StepFailed? then failures[last.index := last.definite] else failures;
    forall i, f, d | StepFailed(i, f, d) in j
      ensures i in after && after[i] == d
    {
      assert StepFailed(i, f, d) in p || StepFailed(i, f, d) == last;
    }
    forall i <- after
      ensures exists f :: StepFailed(i, f, after[i]) in j
    {
      if last.StepFailed? && last.index == i {
        assert j[|p|] == StepFailed(i, last.code, after[i]);
      } else {
        var f :| StepFailed(i, f, failures[i]) in p;
        assert StepFailed(i, f, after[i]) in j;
      }
    }
  }

  lemma {:induction false} FailuresAre(c: Config, j: seq<Event>)
    requires WellFormed(c, j)
    ensures FailuresKnown(j, ViewOf(j).steps.failures)
  {
    hide FailuresKnown, RecordHost, RecordWindow;
    if j == [] {
      NoFailures();
    } else {
      var p, last := j[..|j| - 1], j[|j| - 1];
      FailuresAre(c, p);
      FailuresStep(p, ViewOf(p).steps.failures, last);
      assert j == p + [last];
    }
  }

  lemma NoFailures()
    ensures FailuresKnown([], map[])
  {
  }

  /** Which state a journal is in, for each of the twelve, in its own events. */
  ghost predicate Classified(j: seq<Event>, state: State) {
    var before := !MarkerIn(j);
    && (state == A9Complete <==> Complete in j && Failed !in j)
    && (state == DdlFailed <==> FailedDefinitely(j))
    && (state == DdlAmbiguous <==> MigrationLeftOpen(j) && !FailedDefinitely(j))
    && (state == CandidateAmbiguous <==> CandidateLeftOpen(j))
    && (state == CandidateFailed <==>
          Receipted(j, Layout) && Failed in j && !MigrationLeftOpen(j) && !CandidateLeftOpen(j))
    && (state == PostDdlFailed <==>
          && MarkerIn(j) && !MigrationLeftOpen(j) && !CandidateLeftOpen(j)
          && !(Complete in j && Failed !in j) && !(Receipted(j, Layout) && Failed in j))
    && (state == LegacyResumed <==> HostResumed in j)
    && (state == ResumePartial <==> HostIntent(LegacyResume) in j && HostResumed !in j)
    && (state == BackupWindowUsed <==> before && RequestIn(j) && HostIntent(LegacyResume) !in j)
    && (state == ContainedPreDdl <==>
          before && ContainedIn(j) && !RequestIn(j) && HostIntent(LegacyResume) !in j)
    && (state == ContainmentPartial <==> before && HostIntentIn(j) && !ContainedIn(j))
    && (state == NotStarted <==> before && !HostIntentIn(j))
  }

  /** What the order of a well-formed journal adds to the classification. */
  lemma JournalOrder(c: Config, j: seq<Event>)
    requires WellFormed(c, j)
    ensures var v := ViewOf(j);
            && (v.host.resumed ==> Resuming(v)) && (Resuming(v) ==> v.host.contained && !Marked(v))
            && (v.window.request.Some? ==> v.host.contained) && (v.host.contained ==> v.host.intents != {})
            && (v.steps.complete ==> Marked(v)) && (forall s <- v.steps.intents :: Marked(v))
            && StepFacts(c, v)
  {
    FactsHold(c, j);
    var v := ViewOf(j);
    ResumeRests(v);
    if v.host.contained {
      assert Term(Backend) in v.host.done && Term(Backend) in v.host.intents;
    }
    hide ViewOf, Record;
  }

  lemma StateIsClassified(c: Config, j: seq<Event>)
    requires WellFormed(c, j)
    ensures Classified(j, Recovery(j).state)
  {
    hide WellFormed, ViewOf, Migrations, OpenSteps, Receipted, MarkerIn, RequestIn, ContainedIn, HostIntentIn;
    var v := ViewOf(j);
    EventsAre(j);
    JournalOrder(c, j);
    FailuresAre(c, j);
    OpenAfterMarker(c, v);
    var open := OpenSteps(j, v);
    forall s ensures s in open <==> Open(v, s) { OpenStepsExact(j, s); }
    LastMigration(open, v.steps.applied);
    forall s ensures LeftOpen(j, s) <==> Open(v, s) {}
    var n := v.steps.applied;
    assert MigrationLeftOpen(j) <==> Open(v, Apply(n)) by {
      if MigrationLeftOpen(j) { var i: nat :| LeftOpen(j, Apply(i)); }
      if Open(v, Apply(n)) { assert LeftOpen(j, Apply(n)); }
    }
    DefiniteIs(j, v, n);
    hide StepFacts, LookedUp;
  }

  /** The window backup reported is the one the marker is bound to. */
  lemma WindowBackupIs(c: Config, j: seq<Event>, b: int)
    requires WellFormed(c, j)
    ensures Recovery(j).windowBackup == Some(b) <==> DdlMarker(b) in j
  {
    hide WellFormed, ViewOf, OpenSteps;
    WindowIsLocated(j);
    forall i, k | 0 <= i < k < |j|
      ensures !(j[i].DdlMarker? && j[k].DdlMarker?)
    {
      WindowEventsOnce(c, j, i, k);
    }
  }

  lemma DefiniteIs(j: seq<Event>, v: View, n: nat)
    requires forall i: nat :: LeftOpen(j, Apply(i)) <==> Open(v, Apply(i))
    requires forall i: nat :: Open(v, Apply(i)) ==> i == n
    requires forall i, f, d :: StepFailed(i, f, d) in j ==> i in v.steps.failures && v.steps.failures[i] == d
    requires forall i <- v.steps.failures :: exists f :: StepFailed(i, f, v.steps.failures[i]) in j
    ensures FailedDefinitely(j) <==> Open(v, Apply(n)) && n in v.steps.failures && v.steps.failures[n]
  {
    hide LeftOpen;
    if FailedDefinitely(j) {
      var i: nat, f :| LeftOpen(j, Apply(i)) && StepFailed(i, f, true) in j;
    }
    if Open(v, Apply(n)) && n in v.steps.failures && v.steps.failures[n] {
      var f :| StepFailed(n, f, v.steps.failures[n]) in j;
      assert LeftOpen(j, Apply(n)) && StepFailed(n, f, true) in j;
    }
  }

  /** A failure reported as definite left nothing behind, when only the executor writes the ledger: the
      ledger is the receipted prefix and no executor is left that could still commit. */
  lemma DefiniteFailureLeftNothing(t: Terms, j: seq<Event>, w: World, trace: seq<Emission>)
    requires SiteInv(t, j, w, trace) && t.soleWriter && Marked(ViewOf(j)) && Recovery(j).state == DdlFailed
    ensures ViewOf(j).steps.applied < |t.config.plan.pending|
    ensures w.db.ledger == t.config.plan.LedgerAfter(ViewOf(j).steps.applied) && w.applying == None
  {
    FactsHold(t.config, j);
    RecoveryAfterMarker(t.config, j);
    hide Recovery, ViewOf;
  }
}
