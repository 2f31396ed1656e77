/** The phases and epochs of every journal the initial transition can write, read off its events. */
module InitialTransitionTheorems {
  import opened Outcomes
  import opened Roles
  import opened ReconciliationDelta
  import opened InitialTransitionJournal

  lemma Unfolded(j: seq<Event>)
    ensures j == [] ==> ViewOf(j) == NOTHING
    ensures j != [] ==> ViewOf(j) == Record(ViewOf(j[..|j| - 1]), j[|j| - 1])
  {
  }

  // -- phases -------------------------------------------------------------------------------

  /** The phases in the order they were first recorded, the two that are not steps of the way left out. */
  ghost function FirstStages(j: seq<Event>): seq<Stage> {
    if j == [] then []
    else
      var earlier, e := FirstStages(j[..|j| - 1]), j[|j| - 1];
      if e.Reached? && e.stage !in earlier && !e.stage.DdlStarted? && !e.stage.LegacyResumed?
      then earlier + [e.stage] else earlier
  }

  /** The phases reached are those of the first so many ranks. */
  ghost predicate ReachedUpTo(stages: set<Stage>, n: nat) {
    forall s: Stage :: Rank(s) <= 8 ==> (s in stages <==> Rank(s) < n)
  }

  lemma StageEvent(c: Case, total: nat, v: View, e: Event)
    requires Facts(c, total, v) && Justified(c, total, v, e) && e.Reached? && Rank(e.stage) <= 8 && e.stage !in v.stages
    ensures forall t: Stage :: Rank(t) < Rank(e.stage) ==> t in v.stages
  {
  }

  lemma OrderedStage(stages: set<Stage>, earlier: seq<Stage>, s: Stage)
    requires earlier <= ORDER && ReachedUpTo(stages, |earlier|) && Rank(s) <= 8
    ensures s in earlier <==> s in stages
    ensures s !in stages && (forall t: Stage :: Rank(t) < Rank(s) ==> t in stages) ==>
              earlier + [s] <= ORDER && ReachedUpTo(stages + {s}, |earlier| + 1)
  {
    RanksAreDistinct();
    assert forall i :: 0 <= i < |earlier| ==> earlier[i] == ORDER[i];
    if |earlier| < |ORDER| {
      assert Rank(ORDER[|earlier|]) == |earlier|;
    }
    if s in stages {
      assert earlier[Rank(s)] == s;
    }
    hide Rank;
  }

  /** First occurrences of the phases, `ddl-started` aside, are a prefix of their order. */
  lemma {:induction false} PhasesInOrder(c: Case, total: nat, j: seq<Event>)
    requires WellFormed(c, total, j)
    ensures FirstStages(j) <= ORDER && ReachedUpTo(ViewOf(j).stages, |FirstStages(j)|)
  {
    hide ViewOf, Rank, RecordLegacy, RecordData, RecordDdl, RecordCandidate, Justified, Facts, ReachedUpTo;
    Unfolded(j);
    RanksAreDistinct();
    NoStages();
    if j != [] {
      var p, e := j[..|j| - 1], j[|j| - 1];
      PhasesInOrder(c, total, p);
      FactsHold(c, total, p);
      var v := ViewOf(p);
      if e.Reached? && Rank(e.stage) <= 8 {
        OrderedStage(v.stages, FirstStages(p), e.stage);
        if e.stage !in v.stages {
          StageEvent(c, total, v, e);
        } else {
          assert v.stages + {e.stage} == v.stages;
        }
      } else if e.Reached? {
        OtherStage(v.stages, |FirstStages(p)|, e.stage);
      }
    }
  }

  lemma NoStages()
    ensures ReachedUpTo({}, 0)
  {
  }

  lemma OtherStage(stages: set<Stage>, n: nat, s: Stage)
    requires ReachedUpTo(stages, n) && Rank(s) > 8
    ensures ReachedUpTo(stages + {s}, n)
  {
  }

  lemma RanksAreDistinct()
    ensures forall i :: 0 <= i < |ORDER| ==> Rank(ORDER[i]) == i
    ensures forall s, t: Stage :: Rank(s) == Rank(t) ==> s == t
    ensures forall s: Stage :: Rank(s) <= 8 ==> ORDER[Rank(s)] == s
    ensures forall s: Stage :: Rank(s) > 8 <==> s == DdlStarted || s == LegacyResumed
  {
  }

  /** `ddl-started` is recorded exactly when it was recorded right after the marker: a process killed
      between the two loses it for good. */
  lemma {:induction false} DdlStartedOnlyRightAfter(c: Case, total: nat, j: seq<Event>)
    requires WellFormed(c, total, j)
    ensures DdlStarted in ViewOf(j).stages
            <==> exists m :: 0 <= m < |j| - 1 && j[m].DdlMarker? && j[m + 1] == Reached(DdlStarted)
    ensures ViewOf(j).ddl.justMarked <==> j != [] && j[|j| - 1].DdlMarker?
  {
    hide ViewOf;
    Unfolded(j);
    if j != [] {
      var p := j[..|j| - 1];
      DdlStartedOnlyRightAfter(c, total, p);
      hide RecordLegacy, RecordData, RecordCandidate, WellFormed;
      if DdlStarted in ViewOf(p).stages {
        var m :| 0 <= m < |p| - 1 && p[m].DdlMarker? && p[m + 1] == Reached(DdlStarted);
        assert j[m].DdlMarker? && j[m + 1] == Reached(DdlStarted);
      } else if j[|j| - 1] == Reached(DdlStarted) {
        assert p[|p| - 1] == j[|p| - 1] && j[|p|] == Reached(DdlStarted);
      }
      forall m | 0 <= m < |j| - 1 && j[m].DdlMarker? && j[m + 1] == Reached(DdlStarted)
        ensures DdlStarted in ViewOf(j).stages
      {
        if m < |p| - 1 { assert p[m].DdlMarker? && p[m + 1] == Reached(DdlStarted); }
      }
    }
  }

  /** Such a journal exists: the process died between the marker and the phase, and the next one migrated. */
  lemma DdlStartedCanBeLost(c: Case)
    ensures exists j: seq<Event> ::
              WellFormed(c, 0, j) && Migrated in ViewOf(j).stages && DdlStarted !in ViewOf(j).stages
  {
    hide WellFormed, ViewOf;
    var j := PreflightedJournal(c);
    j := Next(c, j, DdlMarker);
    j := Next(c, j, Reached(Migrated));
  }

  lemma PreflightedJournal(c: Case) returns (j: seq<Event>)
    ensures WellFormed(c, 0, j) && ViewOf(j).stages == {Observed, Contained, Settled, Reconciled, Preflighted}
    ensures !ViewOf(j).legacy.resuming
    ensures ViewOf(j).ddl == NOTHING.ddl && ViewOf(j).candidate == NOTHING.candidate
  {
    hide WellFormed, ViewOf;
    j := SettledJournal(c);
    j := Next(c, j, ReconcileSkipped);
    j := Next(c, j, Reached(Reconciled));
    j := Next(c, j, Reached(Preflighted));
  }

  lemma SettledJournal(c: Case) returns (j: seq<Event>)
    ensures WellFormed(c, 0, j) && ViewOf(j).stages == {Observed, Contained, Settled} && !ViewOf(j).legacy.resuming
    ensures ViewOf(j).ddl == NOTHING.ddl && ViewOf(j).candidate == NOTHING.candidate
  {
    hide WellFormed, ViewOf;
    j := ContainedJournal(c);
    j := Next(c, j, Reached(Contained));
    j := Next(c, j, Settle(Snap(Data(map[], map[], map[]), 0)));
    j := Next(c, j, Reached(Settled));
  }

  /** The first n roles are contained, and nothing was done to the others. */
  ghost predicate ContainedSoFar(v: View, n: nat) {
    && v.legacy.observed.Some? && v.stages == {Observed} && !v.legacy.resuming
    && v.ddl == NOTHING.ddl && v.candidate == NOTHING.candidate
    && forall r: Role ::
         if ContainRank(r) < n then Exit(r) in v.legacy.done
         else PolicyNo(r) !in v.legacy.done && Signal(r) !in v.legacy.intents && Signal(r) !in v.legacy.done
              && Exit(r) !in v.legacy.done
  }

  lemma ContainedJournal(c: Case) returns (j: seq<Event>)
    ensures WellFormed(c, 0, j) && ViewOf(j).stages == {Observed} && !ViewOf(j).legacy.resuming
    ensures ViewOf(j).ddl == NOTHING.ddl && ViewOf(j).candidate == NOTHING.candidate
    ensures forall r: Role :: Exit(r) in ViewOf(j).legacy.done
  {
    j := IdentifiedJournal(c);
    hide WellFormed, ViewOf, ContainedSoFar;
    for n := 0 to 4
      invariant WellFormed(c, 0, j) && ContainedSoFar(ViewOf(j), n)
    {
      j := ContainNext(c, j, ROLES[n]);
    }
    AllContainedSoFar(ViewOf(j));
  }

  lemma AllContainedSoFar(v: View)
    requires ContainedSoFar(v, 4)
    ensures v.stages == {Observed} && !v.legacy.resuming && v.ddl == NOTHING.ddl && v.candidate == NOTHING.candidate
    ensures forall r: Role :: Exit(r) in v.legacy.done
  {
  }

  lemma IdentifiedJournal(c: Case) returns (j: seq<Event>)
    ensures WellFormed(c, 0, j) && ContainedSoFar(ViewOf(j), 0)
  {
    Unfolded([]);
    assert WellFormed(c, 0, []);
    hide WellFormed, ViewOf;
    var x := Identity(Always, 1, 0);
    j := Next(c, [], Identified(PerRole(x, x, x, x), {}));
    j := Next(c, j, Reached(Observed));
  }

  lemma Next(c: Case, j: seq<Event>, e: Event) returns (k: seq<Event>)
    requires WellFormed(c, 0, j) && Justified(c, 0, ViewOf(j), e)
    ensures WellFormed(c, 0, k) && ViewOf(k) == Record(ViewOf(j), e)
  {
    Chain(c, j, e);
    k := j + [e];
  }

  lemma Chain(c: Case, j: seq<Event>, e: Event)
    requires WellFormed(c, 0, j) && Justified(c, 0, ViewOf(j), e)
    ensures WellFormed(c, 0, j + [e]) && ViewOf(j + [e]) == Record(ViewOf(j), e)
  {
    WellFormedAppend(c, 0, j, e);
    ViewAppend(j, e);
  }

  lemma ContainNext(c: Case, j: seq<Event>, r: Role) returns (k: seq<Event>)
    requires WellFormed(c, 0, j) && ContainedSoFar(ViewOf(j), ContainRank(r))
    ensures WellFormed(c, 0, k) && ContainedSoFar(ViewOf(k), ContainRank(r) + 1)
  {
    hide ViewOf, WellFormed, Record;
    k := NextLegacy(c, j, Intent(PolicyNo(r)));
    k := NextLegacy(c, k, Done(PolicyNo(r), 0));
    k := NextLegacy(c, k, Intent(Signal(r)));
    k := NextLegacy(c, k, Done(Signal(r), 0));
    k := NextLegacy(c, k, Done(Exit(r), 0));
  }

  lemma NextLegacy(c: Case, j: seq<Event>, e: Event) returns (k: seq<Event>)
    requires WellFormed(c, 0, j) && Justified(c, 0, ViewOf(j), e) && (e.Intent? || e.Done?) && !ViewOf(j).ddl.justMarked
    ensures WellFormed(c, 0, k) && ViewOf(k) == ViewOf(j).(legacy := RecordLegacy(ViewOf(j).legacy, e))
  {
    hide ViewOf, WellFormed, Justified;
    k := Next(c, j, e);
  }

  // -- the marker and the legacy ------------------------------------------------------------------

  lemma {:induction false} MarkedIs(j: seq<Event>)
    ensures ViewOf(j).ddl.marker <==> DdlMarker in j
    ensures ViewOf(j).legacy.resuming <==> ResumeIntent in j
  {
    hide ViewOf;
    Unfolded(j);
    if j != [] {
      MarkedIs(j[..|j| - 1]);
      assert j == j[..|j| - 1] + [j[|j| - 1]];
      hide RecordData, RecordCandidate;
    }
  }

  /** No journal holds both the marker and the intent to resume the legacy. */
  lemma MarkerExcludesResume(c: Case, total: nat, j: seq<Event>)
    requires WellFormed(c, total, j)
    ensures !(DdlMarker in j && ResumeIntent in j)
  {
    FactsHold(c, total, j);
    MarkedIs(j);
  }

  // -- epochs -------------------------------------------------------------------------------------

  /** The position after the last candidate containment: what came before it no longer counts. */
  function Epoch(j: seq<Event>): (n: nat)
    ensures n <= |j|
  {
    if j == [] then 0 else if j[|j| - 1].CandidateContained? then |j| else Epoch(j[..|j| - 1])
  }

  /** An event since the last containment. */
  ghost predicate InEpoch(j: seq<Event>, e: Event) {
    e in j[Epoch(j)..]
  }

  predicate StartedIn(since: seq<Event>, r: Role) {
    exists e <- since :: e.CandidateStarted? && e.role == r
  }

  ghost predicate StartedInEpoch(j: seq<Event>, r: Role) {
    StartedIn(j[Epoch(j)..], r)
  }

  ghost predicate FlagsMatch(v: CandidateView, since: seq<Event>) {
    && (v.retried <==> Decided(RetryCandidate) in since)
    && (v.ready <==> Reached(CandidateReady) in since)
    && (v.promoted <==> Reached(Promoted) in since)
    && (forall r: Role :: r in v.policies <==> PolicyPersisted(r) in since)
  }

  ghost predicate StartsMatch(v: CandidateView, since: seq<Event>) {
    forall r: Role :: r in v.starts <==> StartedIn(since, r)
  }

  /** The events of an epoch, and what the view holds of it. */
  ghost predicate EpochMatches(v: CandidateView, since: seq<Event>) {
    FlagsMatch(v, since) && StartsMatch(v, since)
  }

  lemma FlagsMatchStep(v: CandidateView, since: seq<Event>, e: Event)
    requires FlagsMatch(v, since)
    ensures FlagsMatch(RecordCandidate(v, e), if e.CandidateContained? then [] else since + [e])
  {
    assert forall x :: x in since + [e] <==> x in since || x == e;
  }

  lemma StartsMatchStep(v: CandidateView, since: seq<Event>, e: Event)
    requires StartsMatch(v, since)
    ensures StartsMatch(RecordCandidate(v, e), if e.CandidateContained? then [] else since + [e])
  {
    hide StartedIn;
    forall r: Role
      ensures StartedIn(since + [e], r) <==> StartedIn(since, r) || (e.CandidateStarted? && e.role == r)
      ensures !StartedIn([], r)
    {
      StartedInStep(since, e, r);
    }
  }

  lemma EpochMatchesStep(v: CandidateView, since: seq<Event>, e: Event)
    requires EpochMatches(v, since)
    ensures EpochMatches(RecordCandidate(v, e), if e.CandidateContained? then [] else since + [e])
    ensures RecordCandidate(v, e).restarted <==> e.CandidateContained? || v.restarted
  {
    hide FlagsMatch, StartsMatch;
    FlagsMatchStep(v, since, e);
    StartsMatchStep(v, since, e);
  }

  lemma StartedInStep(since: seq<Event>, e: Event, r: Role)
    ensures StartedIn(since + [e], r) <==> StartedIn(since, r) || (e.CandidateStarted? && e.role == r)
    ensures !StartedIn([], r)
  {
    var now := since + [e];
    if StartedIn(since, r) {
      var x :| x in since && x.CandidateStarted? && x.role == r;
      assert x in now;
    }
    if e.CandidateStarted? && e.role == r {
      assert e in now;
    }
  }

  /** What the controller looks up since the last containment is what the view holds. */
  lemma {:induction false} EpochIs(j: seq<Event>)
    ensures ViewOf(j).candidate.restarted <==> Epoch(j) > 0
    ensures EpochMatches(ViewOf(j).candidate, j[Epoch(j)..])
  {
    hide ViewOf, RecordLegacy, RecordData, RecordDdl, RecordCandidate;
    Unfolded(j);
    if j != [] {
      var p, e := j[..|j| - 1], j[|j| - 1];
      EpochIs(p);
      assert j == p + [e];
      assert Epoch(j) == if e.CandidateContained? then |j| else Epoch(p);
      assert j[Epoch(j)..] == if e.CandidateContained? then [] else p[Epoch(p)..] + [e];
      EpochMatchesStep(ViewOf(p).candidate, p[Epoch(p)..], e);
    }
  }

  /** A candidate is only started, and its start only receipted, before any containment or after a human
      decision journaled since the last one. */
  lemma StartsNeedDecision(c: Case, total: nat, j: seq<Event>, k: nat)
    requires WellFormed(c, total, j) && k < |j| && (j[k].StartIntended? || j[k].CandidateStarted?)
    ensures Epoch(j[..k]) > 0 ==> InEpoch(j[..k], Decided(RetryCandidate))
  {
    PrefixWellFormed(c, total, j, k);
    EpochIs(j[..k]);
  }

  lemma {:induction false} PrefixWellFormed(c: Case, total: nat, j: seq<Event>, k: nat)
    requires WellFormed(c, total, j) && k < |j|
    ensures WellFormed(c, total, j[..k]) && Justified(c, total, ViewOf(j[..k]), j[k])
    decreases |j|
  {
    if k < |j| - 1 {
      PrefixWellFormed(c, total, j[..|j| - 1], k);
      assert j[..|j| - 1][..k] == j[..k];
    }
  }

  /** A promotion rests on the starts and persisted policies of all four roles in one and the same epoch. */
  lemma PromotionRests(c: Case, total: nat, j: seq<Event>, p: nat)
    requires WellFormed(c, total, j) && p < |j| && j[p] == Reached(Promoted)
    ensures forall r: Role :: StartedInEpoch(j[..p], r) && InEpoch(j[..p], PolicyPersisted(r))
    ensures InEpoch(j[..p], Reached(CandidateReady)) && DdlMarker in j[..p]
  {
    hide ViewOf, WellFormed, StartedIn;
    PrefixWellFormed(c, total, j, p);
    EpochIs(j[..p]);
    MarkedIs(j[..p]);
  }

  /** Once promoted, nothing later contains the candidate: no new epoch is opened. */
  lemma {:induction false} PromotionIsFinal(c: Case, total: nat, j: seq<Event>, p: nat)
    requires WellFormed(c, total, j) && p < |j| && j[p] == Reached(Promoted)
    ensures ViewOf(j).candidate.promoted && Epoch(j) <= p
    ensures forall k :: p < k < |j| ==> !j[k].CandidateContained?
    decreases |j|
  {
    var before, e := j[..|j| - 1], j[|j| - 1];
    if p < |before| {
      PromotionIsFinal(c, total, before, p);
      assert forall k :: 0 <= k < |before| ==> j[k] == before[k];
    }
    hide RecordLegacy, RecordData, RecordDdl, Facts;
  }

  // -- refused attempts ---------------------------------------------------------------------------

  /** The last refusal of a migration the view holds is one of the journal's events, and so is every retry. */
  lemma {:induction false} RefusedIs(j: seq<Event>, i: Index)
    ensures i in ViewOf(j).ddl.refused ==>
              var last := ViewOf(j).ddl.refused[i];
              exists m: nat :: m < |j| && j[m] == MigrationRefused(i, last.attempt, last.code)
  {
    hide ViewOf, RecordLegacy, RecordData, RecordCandidate;
    Unfolded(j);
    if j != [] {
      var p, e := j[..|j| - 1], j[|j| - 1];
      RefusedIs(p, i);
      if e.MigrationRefused? && e.index == i {
        assert e == MigrationRefused(i, e.at, e.code) && e == j[|j| - 1];
      } else if i in ViewOf(p).ddl.refused {
        var last := ViewOf(p).ddl.refused[i];
        var m: nat :| m < |p| && p[m] == MigrationRefused(i, last.attempt, last.code);
        assert j[m] == p[m];
      }
    }
  }

  /** An attempt that was refused stays refused until a human decides to retry its migration. */
  lemma {:induction false} RefusedUntilDecided(c: Case, total: nat, j: seq<Event>, m: nat, i: Index)
    requires WellFormed(c, total, j) && m < |j| && j[m].MigrationRefused? && j[m].index == i && j[m].at.Some?
    requires forall d :: m < d < |j| ==> j[d] != Decided(RetryMigration(i))
    ensures RefusedNow(ViewOf(j), i)
    decreases |j|
  {
    hide ViewOf, RecordLegacy, RecordData, RecordCandidate, StageAllowed, LegacyIntentAllowed, LegacyDoneAllowed;
    Unfolded(j);
    var p, e := j[..|j| - 1], j[|j| - 1];
    PrefixWellFormed(c, total, j, |p|);
    if m < |p| {
      assert p[m] == j[m] && forall d :: m < d < |p| ==> p[d] == j[d];
      RefusedUntilDecided(c, total, p, m, i);
    }
  }

  /** A step of a migration: its attempt begun, its job intended or recorded, or its receipt. */
  ghost predicate OfMigration(e: Event, i: Index) {
    || (e.MigrationStarted? && e.index == i) || (e.MigrationDone? && e.index == i)
    || ((e.JobIntended? || e.JobRecorded?) && e.name.MigrationJob? && e.name.index == i)
  }

  /** After a refused attempt nothing of its migration is journaled before a decision to retry it; and only four
      refusals can be retried. */
  lemma RefusalsAreSticky(c: Case, total: nat, j: seq<Event>, m: nat, k: nat, i: Index) returns (d: nat)
    requires WellFormed(c, total, j) && m < k < |j| && OfMigration(j[k], i)
    requires j[m].MigrationRefused? && j[m].index == i && j[m].at.Some?
    ensures m < d < k && j[d] == Decided(RetryMigration(i))
  {
    hide ViewOf, WellFormed, RefusedNow;
    PrefixWellFormed(c, total, j, k);
    var p := j[..k];
    assert p[m] == j[m];
    if forall d :: m < d < k ==> p[d] != Decided(RetryMigration(i)) {
      RefusedUntilDecided(c, total, p, m, i);
      assert false;
    }
    d :| m < d < k && p[d] == Decided(RetryMigration(i));
    assert j[d] == p[d];
  }

  /** A retry is decided right over a refusal of the same migration with one of the four codes that allow it. */
  lemma RetriesAreOfRefusals(c: Case, total: nat, j: seq<Event>, k: nat, i: Index) returns (m: nat)
    requires WellFormed(c, total, j) && k < |j| && j[k] == Decided(RetryMigration(i))
    ensures m < k && j[m].MigrationRefused? && j[m].index == i && j[m].at.Some?
    ensures j[m].code in {MigrationFailed, ConcurrentIndexInvalid, ConcurrentFailed, ConcurrentIndexPresent}
  {
    hide ViewOf, WellFormed;
    PrefixWellFormed(c, total, j, k);
    RefusedIs(j[..k], i);
    var last := ViewOf(j[..k]).ddl.refused[i];
    m :| m < k && j[..k][m] == MigrationRefused(i, last.attempt, last.code);
    assert j[..k][m] == j[m];
  }
}
