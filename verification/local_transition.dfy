/** The local database transition: a prefix of migrations worked through with explicit retries, where an index
    built outside a transaction is only ever receipted by the invocation that built it. */
module LocalDatabaseTransition {
  import opened Outcomes

  type Index = nat

  /** A pending migration, named by its position, with the definitions of the indexes it builds on its own. */
  datatype Migration = Migration(indexes: map<nat, int>)

  datatype Plan = Plan(baseline: set<int>, pending: seq<Migration>) {

    ghost predicate Valid() {
      && (forall x <- baseline :: !(0 <= x < |pending|))
      && forall i, k :: 0 <= i < k < |pending| ==> pending[i].indexes.Keys !! pending[k].indexes.Keys
    }

    /** The ledger after the first n migrations. */
    function LedgerAfter(n: nat): (ledger: set<int>)
      ensures forall x :: x in ledger <==> x in baseline || 0 <= x < n
    {
      if n == 0 then baseline else LedgerAfter(n - 1) + {n - 1}
    }
  }

  /** What the claims rest on. `soleWriter`: the ledger changes only inside an apply. `faithful`: nothing else
      changes by itself, every call does what it says, and the database was clean at the start. */
  datatype Terms = Terms(plan: Plan, soleWriter: bool, faithful: bool)

  datatype Code = PortFailed | JournalWrite | HostEvidence | PlanChanged | StepInvariant | RetryRequired
                | BackfillCandidate | IndexWithoutLedger | BaselineLedger | Evidence | Preflight | CloneReceipt
                | BaselineChanged | LedgerNotPrefix | LedgerRegressed | Unjournaled | IndexMissing | IndexChanged
                | IndexReceiptMissing | LedgerChanged | LedgerMismatch | SchemaDivergence

  datatype Event =
    | Init | Retry | RunStart | Preflighted | Restored | Marker(restore: nat) | Intent(index: Index)
    | Done(index: Index, indexes: map<nat, int>, recovered: bool) | Verified | Complete(start: nat) | Failed

  datatype Receipt = Receipt(indexes: map<nat, int>, recovered: bool)

  datatype View = View(init: bool, marker: Option<nat>, restore: Option<nat>, start: Option<nat>, complete: Option<nat>,
                       intents: set<Index>, done: map<Index, Receipt>, verified: bool, last: Option<Event>)

  const NOTHING := View(false, None, None, None, None, {}, map[], false, None)

  /** The view after one more event, written at position n. */
  function Record(v: View, n: nat, e: Event): View {
    var w := v.(last := Some(e));
    match e
    case Init => w.(init := true)
    case RunStart => w.(start := Some(n))
    case Restored => w.(restore := Some(n))
    case Marker(r) => w.(marker := Some(r))
    case Intent(i) => w.(intents := v.intents + {i})
    case Done(i, x, r) => w.(done := v.done[i := Receipt(x, r)])
    case Verified => w.(verified := true)
    case Complete(s) => w.(complete := Some(s))
    case _ => w
  }

  function ViewOf(j: seq<Event>): View {
    if j == [] then NOTHING else Record(ViewOf(j[..|j| - 1]), |j|, j[|j| - 1])
  }

  lemma ViewAppend(j: seq<Event>, e: Event)
    ensures ViewOf(j + [e]) == Record(ViewOf(j), |j| + 1, e)
  {
    assert (j + [e])[..|j|] == j;
  }

  /** The last run that started did not complete. */
  predicate Interrupted(v: View) {
    v.start.Some? && v.complete != v.start
  }

  predicate Unreceipted(v: View) {
    exists i <- v.intents :: i !in v.done
  }

  predicate NeedsRetry(v: View) {
    v.marker.Some? && (Interrupted(v) || Unreceipted(v))
  }

  ghost predicate AllDone(p: Plan, v: View) {
    forall i :: 0 <= i < |p.pending| ==> i in v.done
  }

  ghost predicate DoneBefore(v: View, i: Index) {
    forall k: nat :: k < i ==> k in v.done
  }

  /** The event may follow a journal with this view. */
  ghost predicate Justified(p: Plan, v: View, e: Event) {
    match e
    case Init => !v.init
    case Retry => NeedsRetry(v)
    case RunStart => NeedsRetry(v) ==> v.last == Some(Retry)
    case Preflighted => Interrupted(v)
    case Restored => v.marker.None? && Interrupted(v)
    case Marker(r) => v.marker.None? && v.restore == Some(r) && Interrupted(v)
    case Intent(i) => v.marker.Some? && Interrupted(v) && i < |p.pending| && i !in v.done && DoneBefore(v, i)
    case Done(i, x, recovered) =>
      && v.marker.Some? && Interrupted(v) && i < |p.pending| && i in v.intents && i !in v.done && DoneBefore(v, i)
      && x.Keys == p.pending[i].indexes.Keys
      && (if recovered then p.pending[i].indexes == map[] else v.last == Some(Intent(i)))
    case Verified =>
      v.marker.Some? && Interrupted(v) && AllDone(p, v) && !v.verified && v.last == Some(Event.Preflighted)
    case Complete(s) => v.start == Some(s) && v.verified
    case Failed => v.marker.Some?
  }

  ghost predicate WellFormed(p: Plan, j: seq<Event>) {
    j == [] || (WellFormed(p, j[..|j| - 1]) && Justified(p, ViewOf(j[..|j| - 1]), j[|j| - 1]))
  }

  lemma WellFormedAppend(p: Plan, j: seq<Event>, e: Event)
    ensures WellFormed(p, j + [e]) <==> WellFormed(p, j) && Justified(p, ViewOf(j), e)
  {
    assert (j + [e])[..|j|] == j;
  }

  /** How many migrations are receipted; they are the first so many. */
  ghost function Receipts(v: View): nat {
    |v.done|
  }

  ghost predicate DoneFacts(p: Plan, v: View) {
    && Receipts(v) <= |p.pending|
    && (forall i :: i in v.done <==> 0 <= i < Receipts(v))
    && (forall i <- v.intents :: i <= Receipts(v) && i < |p.pending|)
    && (forall i <- v.done :: i in v.intents && v.done[i].indexes.Keys == p.pending[i].indexes.Keys)
    && (forall i <- v.done :: v.done[i].recovered ==> p.pending[i].indexes == map[])
  }

  ghost predicate RunFacts(p: Plan, v: View) {
    && (v.intents != {} ==> v.marker.Some?)
    && (v.verified ==> AllDone(p, v))
    && (!Interrupted(v) ==> !Unreceipted(v))
    && (v.complete.Some? ==> v.start.Some? && v.complete.value <= v.start.value)
  }

  ghost predicate Facts(p: Plan, v: View) {
    DoneFacts(p, v) && RunFacts(p, v)
  }

  lemma DoneIsPrefix(p: Plan, v: View)
    requires DoneFacts(p, v)
    ensures forall i: nat :: DoneBefore(v, i) <==> i <= Receipts(v)
  {
    forall i: nat | i > Receipts(v)
      ensures !DoneBefore(v, i)
    {
      assert Receipts(v) !in v.done;
    }
  }

  lemma OneMore(v: View, n: nat, e: Event)
    requires e.Done? && e.index !in v.done
    ensures Receipts(Record(v, n, e)) == Receipts(v) + 1
  {
    var d := Record(v, n, e).done;
    assert d.Keys == v.done.Keys + {e.index} && |d| == |d.Keys| && |v.done| == |v.done.Keys|;
  }

  lemma DoneFactsStep(p: Plan, v: View, n: nat, e: Event)
    requires DoneFacts(p, v) && Justified(p, v, e)
    ensures DoneFacts(p, Record(v, n, e))
  {
    DoneIsPrefix(p, v);
    hide DoneBefore;
    if e.Done? {
      OneMore(v, n, e);
      hide Receipts;
      ReceiptFacts(p, v, v.done[e.index := Receipt(e.indexes, e.recovered)], e);
    } else {
      assert Record(v, n, e).done == v.done;
    }
  }

  lemma ReceiptFacts(p: Plan, v: View, done: map<Index, Receipt>, e: Event)
    requires DoneFacts(p, v) && e.Done? && Justified(p, v, e) && e.index == Receipts(v)
    requires done == v.done[e.index := Receipt(e.indexes, e.recovered)]
    ensures forall i :: i in done <==> 0 <= i < Receipts(v) + 1
    ensures forall i <- done :: i in v.intents && done[i].indexes.Keys == p.pending[i].indexes.Keys
    ensures forall i <- done :: done[i].recovered ==> p.pending[i].indexes == map[]
  {
    hide DoneBefore;
  }

  lemma RunFactsStep(p: Plan, v: View, n: nat, e: Event)
    requires DoneFacts(p, v) && RunFacts(p, v) && Justified(p, v, e) && (v.start.Some? ==> v.start.value < n)
    ensures RunFacts(p, Record(v, n, e))
  {
    hide Receipts, DoneBefore;
  }

  lemma FactsStep(p: Plan, v: View, n: nat, e: Event)
    requires Facts(p, v) && Justified(p, v, e) && (v.start.Some? ==> v.start.value < n)
    ensures Facts(p, Record(v, n, e))
  {
    hide DoneFacts, RunFacts, Justified, Record;
    DoneFactsStep(p, v, n, e);
    RunFactsStep(p, v, n, e);
  }

  lemma {:induction false} StartIsPast(j: seq<Event>)
    ensures ViewOf(j).start.Some? ==> ViewOf(j).start.value <= |j|
  {
    if j != [] {
      StartIsPast(j[..|j| - 1]);
    }
  }

  lemma {:induction false} FactsHold(p: Plan, j: seq<Event>)
    requires WellFormed(p, j)
    ensures Facts(p, ViewOf(j))
  {
    if j != [] {
      hide Facts, Justified, Record;
      StartIsPast(j[..|j| - 1]);
      FactsHold(p, j[..|j| - 1]);
      FactsStep(p, ViewOf(j[..|j| - 1]), |j|, j[|j| - 1]);
    }
  }

  /** A migration without a receipt is only ever left behind by an interrupted run. */
  lemma UnreceiptedIsInterrupted(p: Plan, j: seq<Event>)
    requires WellFormed(p, j)
    ensures Unreceipted(ViewOf(j)) ==> Interrupted(ViewOf(j))
    ensures NeedsRetry(ViewOf(j)) <==> ViewOf(j).marker.Some? && Interrupted(ViewOf(j))
  {
    FactsHold(p, j);
  }

  // -- the database ------------------------------------------------------------------------------

  /** `clean`, `gates` and `preflight` say that the checks of these names find nothing; `schema` that the final
      catalog is the rehearsed one. */
  datatype World = World(contained: bool, ledger: set<int>, relations: map<nat, int>, clean: bool, gates: bool,
                         preflight: bool, schema: bool, catalog: int)

  /** One apply sent out: the journal at that moment, the observation made for it, and whether it committed. */
  datatype Emission = Emission(index: Index, past: seq<Event>, view: World, took: bool)

  function Committed(p: Plan, i: Index, w: World): World
    requires i < |p.pending|
  {
    w.(ledger := w.ledger + {i}, relations := w.relations + p.pending[i].indexes)
  }

  predicate Moves(t: Terms, w: World, w': World) {
    (t.soleWriter ==> w'.ledger == w.ledger) && (t.faithful ==> w' == w)
  }

  ghost predicate Lawful(p: Plan, e: Emission) {
    var v := ViewOf(e.past);
    && e.index < |p.pending| && v.marker.Some? && v.last == Some(Intent(e.index))
    && e.view.ledger == p.LedgerAfter(e.index) && e.view.clean && e.view.gates
    && p.pending[e.index].indexes.Keys !! e.view.relations.Keys
  }

  ghost predicate Has(w: World, m: Migration) {
    forall x <- m.indexes :: x in w.relations && w.relations[x] == m.indexes[x]
  }

  /** The worlds a process went through from one event to the next, each as an observation or an apply left it; the
      last is the one the event is written over. */
  type Course = seq<World>

  ghost predicate Standing(course: Course, w: World) {
    course != [] && course[|course| - 1] == w
  }

  ghost predicate ContainedSeen(course: Course) {
    exists k :: 0 <= k < |course| && course[k].contained
  }

  ghost predicate PreflightSeen(course: Course) {
    exists k :: 0 <= k < |course| && course[k].preflight
  }

  ghost predicate SchemaSeen(course: Course) {
    exists k :: 0 <= k < |course| && course[k].schema
  }

  lemma StillSeen(course: Course, course': Course)
    requires course <= course'
    ensures ContainedSeen(course) ==> ContainedSeen(course')
    ensures PreflightSeen(course) ==> PreflightSeen(course')
    ensures SchemaSeen(course) ==> SchemaSeen(course')
  {
    if ContainedSeen(course) {
      var k :| 0 <= k < |course| && course[k].contained;
      assert course'[k].contained;
    }
    if PreflightSeen(course) {
      var k :| 0 <= k < |course| && course[k].preflight;
      assert course'[k].preflight;
    }
    if SchemaSeen(course) {
      var k :| 0 <= k < |course| && course[k].schema;
      assert course'[k].schema;
    }
  }

  /** The clean baseline, with every gate and no index of a pending migration. */
  ghost predicate OnBaseline(p: Plan, w: World) {
    w.ledger == p.baseline && w.clean && w.gates
    && forall i :: 0 <= i < |p.pending| ==> p.pending[i].indexes.Keys !! w.relations.Keys
  }

  /** A clean database at the prefix before a migration, none of its indexes there. */
  ghost predicate ReadyFor(p: Plan, i: Index, w: World) {
    i < |p.pending| && w.ledger == p.LedgerAfter(i) && w.clean && w.gates
    && p.pending[i].indexes.Keys !! w.relations.Keys
  }

  /** The whole ledger, and every receipt what is shown. */
  ghost predicate Final(p: Plan, v: View, w: World) {
    && w.ledger == p.LedgerAfter(|p.pending|) && w.clean
    && forall i :: 0 <= i < |p.pending| ==>
         i in v.done && v.done[i].indexes.Keys == p.pending[i].indexes.Keys
         && forall x <- p.pending[i].indexes :: x in w.relations && v.done[i].indexes[x] == w.relations[x]
  }

  /** What the observations since the previous event must have shown when an event is written; w is the last of
      them. */
  ghost predicate Shown(p: Plan, v: View, w: World, course: Course, e: Event) {
    match e
    case RunStart => w.clean
    case Preflighted =>
      PreflightSeen(course) && (v.marker.Some? ==> SchemaSeen(course) && ContainedSeen(course) && Final(p, v, w))
    case Marker(_) => ContainedSeen(course) && OnBaseline(p, w)
    case Intent(i) => ContainedSeen(course) && ReadyFor(p, i, w)
    case Done(i, _, recovered) =>
      ContainedSeen(course) && (recovered || (w.ledger == p.LedgerAfter(i + 1) && w.clean))
    case _ => true
  }

  /** An event was written at the end of this course. */
  ghost predicate Witness(t: Terms, v: View, course: Course, e: Event) {
    course != [] && var w := course[|course| - 1]; Fits(t, w, e) && Shown(t.plan, v, w, course, e)
  }

  /** `written` holds the course each event was written at the end of. */
  ghost predicate Witnessed(t: Terms, j: seq<Event>, written: seq<Course>) {
    |written| == |j| && forall k :: 0 <= k < |j| ==> Witness(t, ViewOf(j[..k]), written[k], j[k])
  }

  lemma WitnessedAppend(t: Terms, j: seq<Event>, written: seq<Course>, course: Course, e: Event)
    requires Witnessed(t, j, written) && Witness(t, ViewOf(j), course, e)
    ensures Witnessed(t, j + [e], written + [course])
  {
    hide Witness, ViewOf;
    forall k | 0 <= k <= |j|
      ensures Witness(t, ViewOf((j + [e])[..k]), (written + [course])[k], (j + [e])[k])
    {
      assert (j + [e])[..k] == j[..k];
    }
  }

  ghost predicate Fits(t: Terms, w: World, e: Event) {
    e.Done? ==>
      && (t.soleWriter ==> e.index in w.ledger)
      && e.indexes.Keys <= w.relations.Keys && forall x <- e.indexes :: e.indexes[x] == w.relations[x]
  }

  /** The ledger is the baseline, the receipted prefix, and at most the one migration intended after it. */
  ghost predicate LedgerInv(p: Plan, v: View, w: World) {
    var d := Receipts(v);
    w.ledger == p.LedgerAfter(d) || (d in v.intents && w.ledger == p.LedgerAfter(d + 1))
  }

  ghost predicate Follows(p: Plan, v: View, w: World) {
    && w.contained && w.clean && w.gates && w.preflight && w.schema
    && (forall i :: 0 <= i < |p.pending| ==>
          if i in w.ledger then Has(w, p.pending[i]) else p.pending[i].indexes.Keys !! w.relations.Keys)
    && (forall i <- v.done :: i < |p.pending| && v.done[i].indexes == p.pending[i].indexes)
  }

  ghost predicate TraceInv(t: Terms, j: seq<Event>, w: World, trace: seq<Emission>) {
    && (forall e <- trace :: e.past <= j && Lawful(t.plan, e))
    && (t.soleWriter ==>
          && (forall e <- trace :: e.took ==> e.index in w.ledger)
          && forall a, b :: 0 <= a < b < |trace| && trace[a].took && trace[b].took ==> trace[a].index != trace[b].index)
  }

  ghost predicate SiteInv(t: Terms, j: seq<Event>, w: World, trace: seq<Emission>) {
    && t.plan.Valid() && (t.faithful ==> t.soleWriter)
    && WellFormed(t.plan, j) && TraceInv(t, j, w, trace)
    && (t.soleWriter ==> LedgerInv(t.plan, ViewOf(j), w))
    && (t.faithful ==> Follows(t.plan, ViewOf(j), w))
  }

  lemma AppendKeeps(t: Terms, j: seq<Event>, w: World, trace: seq<Emission>, e: Event)
    requires SiteInv(t, j, w, trace) && Justified(t.plan, ViewOf(j), e) && Fits(t, w, e)
    ensures SiteInv(t, j + [e], w, trace)
  {
    hide ViewOf, WellFormed, Lawful, Justified, Facts, Record, Fits;
    var v := ViewOf(j);
    FactsHold(t.plan, j);
    StartIsPast(j);
    FactsStep(t.plan, v, |j| + 1, e);
    ViewAppend(j, e);
    WellFormedAppend(t.plan, j, e);
    AppendKeepsDatabase(t, v, |j| + 1, w, e);
  }

  lemma AppendKeepsDatabase(t: Terms, v: View, n: nat, w: World, e: Event)
    requires Facts(t.plan, v) && Facts(t.plan, Record(v, n, e)) && Justified(t.plan, v, e) && Fits(t, w, e)
    requires t.plan.Valid()
    requires t.faithful ==> t.soleWriter
    ensures t.soleWriter && LedgerInv(t.plan, v, w) ==> LedgerInv(t.plan, Record(v, n, e), w)
    ensures t.faithful && Follows(t.plan, v, w) ==> Follows(t.plan, Record(v, n, e), w)
  {
    if e.Done? {
      OneMore(v, n, e);
      DoneIsPrefix(t.plan, v);
      hide RunFacts, DoneBefore;
      if t.faithful && Follows(t.plan, v, w) {
        ReceiptFollows(t, v, n, w, e);
      }
    } else {
      assert Record(v, n, e).done == v.done && v.intents <= Record(v, n, e).intents;
      hide Justified, Facts, RunFacts;
    }
  }

  lemma ReceiptFollows(t: Terms, v: View, n: nat, w: World, e: Event)
    requires Follows(t.plan, v, w) && e.Done? && e.index < |t.plan.pending| && Fits(t, w, e) && t.soleWriter
    requires e.indexes.Keys == t.plan.pending[e.index].indexes.Keys
    ensures Follows(t.plan, Record(v, n, e), w)
  {
    assert Has(w, t.plan.pending[e.index]);
    assert e.indexes == t.plan.pending[e.index].indexes;
    assert Record(v, n, e).done == v.done[e.index := Receipt(e.indexes, e.recovered)];
    hide Record;
  }

  lemma ApplyKeepsDatabase(t: Terms, v: View, w: World, i: Index, w': World)
    requires t.plan.Valid() && t.soleWriter && LedgerInv(t.plan, v, w) && i == Receipts(v) < |t.plan.pending|
    requires i in v.intents
    requires w.ledger == t.plan.LedgerAfter(i) && w' == Committed(t.plan, i, w)
    ensures LedgerInv(t.plan, v, w')
    ensures Follows(t.plan, v, w) ==> Follows(t.plan, v, w')
  {
    assert w'.ledger == t.plan.LedgerAfter(i + 1);
    if Follows(t.plan, v, w) {
      forall k | 0 <= k < |t.plan.pending|
        ensures if k in w'.ledger then Has(w', t.plan.pending[k])
                else t.plan.pending[k].indexes.Keys !! w'.relations.Keys
      {
        assert k != i ==> t.plan.pending[k].indexes.Keys !! t.plan.pending[i].indexes.Keys;
      }
    }
  }

  lemma ApplyKeepsTrace(t: Terms, j: seq<Event>, w: World, trace: seq<Emission>, e: Emission, w': World)
    requires TraceInv(t, j, w, trace) && e.past == j && Lawful(t.plan, e)
    requires t.soleWriter && e.took ==> e.index !in w.ledger
    requires w' == if e.took && e.index < |t.plan.pending| then Committed(t.plan, e.index, w) else w
    ensures TraceInv(t, j, w', trace + [e])
  {
    assert e.index < |t.plan.pending|;
    hide Lawful;
    var all := trace + [e];
    forall x <- all ensures x in trace || x == e {}
    assert forall k :: 0 <= k < |trace| ==> all[k] == trace[k] && trace[k] in trace;
  }

  lemma ApplyKeeps(t: Terms, j: seq<Event>, w: World, trace: seq<Emission>, e: Emission, w': World)
    requires SiteInv(t, j, w, trace) && e.past == j && Lawful(t.plan, e)
    requires t.soleWriter ==> w.ledger == e.view.ledger
    requires w' == if e.took then Committed(t.plan, e.index, w) else w
    ensures SiteInv(t, j, w', trace + [e])
  {
    LastIntended(t.plan, j);
    hide ViewOf, WellFormed, TraceInv, LedgerInv, Follows;
    if t.soleWriter && e.took {
      ApplyKeepsDatabase(t, ViewOf(j), w, e.index, w');
    }
    ApplyKeepsTrace(t, j, w, trace, e, w');
  }

  lemma LastIntendedStep(p: Plan, v: View, n: nat, e: Event)
    requires Facts(p, v) && Justified(p, v, e)
    ensures Record(v, n, e).last == Some(e)
    ensures e.Intent? ==> e.index == Receipts(Record(v, n, e)) && e.index in Record(v, n, e).intents
  {
    DoneIsPrefix(p, v);
  }

  /** The migration just intended is the one after the receipted prefix. */
  lemma LastIntended(p: Plan, j: seq<Event>)
    requires WellFormed(p, j)
    ensures ViewOf(j).last.Some? && ViewOf(j).last.value.Intent? ==>
              ViewOf(j).last.value.index == Receipts(ViewOf(j)) && ViewOf(j).last.value.index in ViewOf(j).intents
  {
    if j != [] {
      var q := j[..|j| - 1];
      FactsHold(p, q);
      DoneIsPrefix(p, ViewOf(q));
      LastIntendedStep(p, ViewOf(q), |j|, j[|j| - 1]);
      hide Facts, WellFormed, Receipts, Record, Justified;
    }
  }

  // -- the transition ---------------------------------------------------------------------------------

  /** The prefix of the plan a ledger stands for. */
  ghost predicate StandsAt(p: Plan, ledger: set<int>, n: nat) {
    n <= |p.pending| && ledger == p.LedgerAfter(n)
  }

  /** The definitions an observation shows for the indexes of a migration. */
  function Reviewed(m: Migration, w: World): map<nat, int>
    requires m.indexes.Keys <= w.relations.Keys
  {
    map x | x in m.indexes :: w.relations[x]
  }

  predicate NoPendingIndex(p: Plan, w: World) {
    forall i :: 0 <= i < |p.pending| ==> p.pending[i].indexes.Keys !! w.relations.Keys
  }

  /** What a replay cannot receipt: a committed migration with indexes whose receipt was never written. */
  ghost predicate Receiptable(p: Plan, v: View, w: World) {
    forall i :: 0 <= i < |p.pending| && i in w.ledger ==> i in v.done || p.pending[i].indexes == map[]
  }

  /** Every receipt is what the database shows. */
  predicate ReceiptsShown(p: Plan, v: View, w: World) {
    forall i :: 0 <= i < |p.pending| ==>
      i in v.done && p.pending[i].indexes.Keys <= w.relations.Keys
      && v.done[i].indexes == Reviewed(p.pending[i], w)
  }

  lemma BaselineIs(p: Plan, w: World)
    requires w.ledger == p.baseline && w.clean && w.gates && NoPendingIndex(p, w)
    ensures OnBaseline(p, w)
  {
  }

  lemma ReceiptsAre(p: Plan, v: View, w: World)
    requires ReceiptsShown(p, v, w) && w.ledger == p.LedgerAfter(|p.pending|) && w.clean
    ensures Final(p, v, w)
  {
    hide Plan.LedgerAfter;
  }

  class LocalTransition {
    const terms: Terms
    const steady: bool
    var journal: seq<Event>
    var world: World
    /** What the process went through since the last event it wrote, and what it had when it wrote each. */
    ghost var course: Course
    ghost var written: seq<Course>
    ghost var trace: seq<Emission>

    constructor (terms: Terms, steady: bool, journal: seq<Event>, ghost written: seq<Course>, world: World,
                 ghost trace: seq<Emission>)
      ensures this.terms == terms && this.steady == steady
      ensures this.journal == journal && this.world == world && this.trace == trace
      ensures this.written == written && this.course == [world]
    {
      this.terms, this.steady, this.journal, this.world, this.trace := terms, steady, journal, world, trace;
      this.written, this.course := written, [world];
    }

    function View(): View
      reads this`journal
    {
      ViewOf(journal)
    }

    ghost predicate Inv()
      reads this
    {
      SiteInv(terms, journal, world, trace) && Witnessed(terms, journal, written) && Standing(course, world)
    }

    /** One durable append. It may be refused with nothing written; a process killed during it left the record
        there or not. */
    method Write(e: Event) returns (o: Outcome<Code>)
      requires Inv() && Justified(terms.plan, View(), e) && Fits(terms, world, e)
      requires Shown(terms.plan, View(), world, course, e)
      modifies `course, `written, `journal
      ensures Inv() && (terms.faithful ==> !o.Refused?) && (steady ==> !o.Killed?)
      ensures o.Refused? ==> o.code == JournalWrite && journal == old(journal)
      ensures View() == Record(old(View()), |old(journal)| + 1, e) || (!o.Pass? && View() == old(View()))
      ensures o.Pass? ==> journal == old(journal) + [e] && written == old(written) + [old(course)]
    {
      hide SiteInv, Witnessed, Justified, Fits, Shown, ViewOf, Record;
      ghost var v := View();
      o := *;
      if (o.Killed? && steady) || (o.Refused? && terms.faithful) { o := Pass; }
      if o.Refused? { return Refused(JournalWrite); }
      var lost := *;
      if o.Pass? || !lost {
        ViewAppend(journal, e);
        AppendKeeps(terms, journal, world, trace, e);
        WitnessedAppend(terms, journal, written, course, e);
        written, course := written + [course], [world];
        journal := journal + [e];
        assert View() == Record(v, |old(journal)| + 1, e);
      }
    }

    method Observe() returns (o: Outcome<Code>, view: World)
      requires Inv()
      modifies `course, `world
      ensures Inv() && view == world && Moves(terms, old(world), world)
      ensures course == old(course) + [world]
      ensures terms.faithful ==> !o.Refused?
      ensures steady ==> !o.Killed?
    {
      hide SiteInv, Witnessed;
      Standstill(terms, world);
      var next: World := *;
      if Moves(terms, world, next) {
        MovesKeep(terms, journal, world, next, trace);
        world := next;
      }
      course := course + [world];
      o := *;
      if (terms.faithful && o.Refused?) || (steady && o.Killed?) { o := Pass; }
      view := world;
    }

    /** A faithful observation finds nothing. */
    method ObserveClean() returns (o: Outcome<Code>, view: World)
      requires Inv()
      modifies `course, `world
      ensures Inv() && view == world && Moves(terms, old(world), world)
      ensures course == old(course) + [world]
      ensures o.Pass? ==> view.clean
      ensures terms.faithful ==> !o.Refused? && Follows(terms.plan, View(), view)
      ensures steady ==> !o.Killed?
    {
      o, view := Observe();
      if o.Pass? { o := Require(view.clean, StepInvariant); }
    }

    method CheckHost() returns (o: Outcome<Code>)
      requires Inv()
      modifies `course, `world
      ensures Inv() && Moves(terms, old(world), world)
      ensures old(course) <= course && (o.Pass? ==> world.contained && ContainedSeen(course))
      ensures terms.faithful ==> !o.Refused?
      ensures steady ==> !o.Killed?
    {
      var view;
      o, view := Observe();
      if o.Pass? { o := Require(view.contained, HostEvidence); }
      assert course[|course| - 1] == view;
    }

    /** The executor applies one migration: it commits or not, whatever is reported. */
    method Apply(i: Index, view: World) returns (o: Outcome<Code>)
      requires Inv() && i < |terms.plan.pending| && Lawful(terms.plan, Emission(i, journal, view, false))
      requires terms.soleWriter ==> world.ledger == view.ledger
      modifies `course, `world, `trace
      ensures Inv() && |trace| == |old(trace)| + 1
      ensures terms.faithful ==> !o.Refused?
      ensures terms.faithful && o.Pass? ==> world == Committed(terms.plan, i, old(world))
      ensures steady ==> !o.Killed?
    {
      o := *;
      if (terms.faithful && o.Refused?) || (steady && o.Killed?) { o := Pass; }
      var lost := *;
      var takes := if o.Pass? && terms.faithful then true else lost;
      ghost var m := Emission(i, journal, view, takes);
      assert Lawful(terms.plan, m);
      var next := if takes then Committed(terms.plan, i, world) else world;
      hide SiteInv, Witnessed, Lawful, ViewOf, Committed;
      ApplyKeeps(terms, journal, world, trace, m, next);
      world, trace := next, trace + [m];
      course := course + [next];
    }

    // -- before the marker -------------------------------------------------------------------------

    /** Everything is proved on the baseline, the clone rehearsed, and everything proved once more. */
    method UpToMarker(observed: World, evidence: bool) returns (o: Outcome<Code>)
      requires Inv() && View().marker.None? && Interrupted(View()) && observed.clean
      requires terms.faithful ==> observed == world
      modifies `course, `written, `journal, `world
      ensures Inv() && OnlyMarking(old(View()), View())
      ensures o.Pass? ==> View().marker.Some? && MarkedLast(View()) && evidence
      ensures !evidence ==> View().marker.None?
      ensures o.Pass? ==> OnBaseline(terms.plan, observed) && OnBaseline(terms.plan, world)
                          && world.catalog == observed.catalog
      ensures terms.faithful ==> world == old(world)
      ensures terms.soleWriter ==> world.ledger == old(world).ledger
      ensures terms.faithful && steady ==> (o.Pass? <==> evidence)
      ensures steady ==> !o.Killed?
    {
      hide SiteInv, Witnessed, Standing, ViewOf, Follows, NoPendingIndex, OnBaseline, LocalTransition.Inv;
      FollowsHere();
      if !observed.gates { return Refused(BackfillCandidate); }
      if !NoPendingIndex(terms.plan, observed) { return Refused(IndexWithoutLedger); }
      if observed.ledger != terms.plan.baseline { return Refused(BaselineLedger); }
      if !evidence { return Refused(Evidence); }
      BaselineIs(terms.plan, observed);
      :- Rehearse();
      o := Mark(observed);
    }

    method Rehearse() returns (o: Outcome<Code>)
      requires Inv() && View().marker.None? && Interrupted(View())
      modifies `course, `written, `journal, `world
      ensures Inv() && OnlyMarking(old(View()), View()) && View().marker.None?
      ensures o.Pass? ==> View().restore.Some?
      ensures terms.faithful ==> !o.Refused? && world == old(world)
      ensures terms.soleWriter ==> world.ledger == old(world).ledger
      ensures steady ==> !o.Killed?
    {
      hide SiteInv, Witnessed, Standing, ViewOf, LocalTransition.Inv;
      FollowsHere();
      var view: World;
      view :- Observe();
      if !view.preflight { return Refused(Code.Preflight); }
      SeenNow();
      :- Write(Preflighted);
      var rehearsed := *;
      if !rehearsed && !terms.faithful { return Refused(CloneReceipt); }
      o := Write(Restored);
    }

    lemma FollowsHere()
      requires Inv()
      ensures terms.plan.Valid() && (terms.faithful ==> terms.soleWriter && Follows(terms.plan, View(), world))
      ensures terms.faithful && View().intents == {} ==>
                world.ledger == terms.plan.baseline && NoPendingIndex(terms.plan, world)
      ensures View().intents != {} ==> View().marker.Some?
    {
      SiteFollows(terms, journal, world, trace);
    }

    /** What a faithful database shows of one migration. */
    lemma MigrationFollows(i: Index)
      requires Inv() && i < |terms.plan.pending|
      ensures terms.plan.Valid() && (terms.faithful ==> world.clean && world.gates)
      ensures terms.faithful && i in world.ledger ==>
                terms.plan.pending[i].indexes.Keys <= world.relations.Keys
      ensures terms.faithful && i !in world.ledger ==> terms.plan.pending[i].indexes.Keys !! world.relations.Keys
    {
      hide SiteInv, Witnessed, Standing, ViewOf;
      FollowsHere();
    }

    lemma StandsHere()
      requires Inv()
      ensures terms.soleWriter ==>
                && (exists k: nat :: k <= |terms.plan.pending| && world.ledger == terms.plan.LedgerAfter(k))
                && (forall i <- View().done :: i in world.ledger)
      ensures terms.plan.Valid() && (terms.faithful ==> terms.soleWriter)
      ensures forall i <- View().done :: i < |terms.plan.pending|
    {
      SiteStands(terms, journal, world, trace);
      SiteIntents(terms, journal, world, trace);
    }

    lemma SeenNow()
      requires Inv()
      ensures world.preflight ==> PreflightSeen(course)
      ensures world.schema ==> SchemaSeen(course)
      ensures world.contained ==> ContainedSeen(course)
    {
      assert course[|course| - 1] == world;
    }

    /** The same baseline, host and findings right before the irrevocable marker, bound to the rehearsed backup. */
    method Mark(observed: World) returns (o: Outcome<Code>)
      requires Inv() && View().marker.None? && Interrupted(View()) && View().restore.Some?
      requires observed.ledger == terms.plan.baseline
      requires terms.faithful ==> observed == world && NoPendingIndex(terms.plan, world)
      modifies `course, `written, `journal, `world
      ensures Inv() && OnlyMarking(old(View()), View())
      ensures o.Pass? ==> View().marker == View().restore && View().marker.Some? && MarkedLast(View())
      ensures o.Pass? ==> OnBaseline(terms.plan, world) && world.catalog == observed.catalog
      ensures terms.faithful ==> !o.Refused? && world == old(world)
      ensures terms.soleWriter ==> world.ledger == old(world).ledger
      ensures steady ==> !o.Killed?
    {
      hide SiteInv, Witnessed, Standing, ViewOf, NoPendingIndex, OnBaseline, LocalTransition.Inv;
      :- CheckHost();
      ghost var checked := course;
      var view: World;
      view :- ObserveClean();
      StillSeen(checked, course);
      if !view.gates { return Refused(BackfillCandidate); }
      if !NoPendingIndex(terms.plan, view) { return Refused(IndexWithoutLedger); }
      if view.ledger != observed.ledger || view.catalog != observed.catalog { return Refused(BaselineChanged); }
      BaselineIs(terms.plan, view);
      o := Write(Marker(View().restore.value));
    }

    // -- the migrations --------------------------------------------------------------------------------

    /** A migration found in the ledger: its receipt must be what is shown; without one it is receipted only when
        it builds no index of its own. */
    method Adopt(i: Index, observed: World) returns (o: Outcome<Code>)
      requires Inv() && View().marker.Some? && Interrupted(View()) && i < |terms.plan.pending|
      requires DoneBefore(View(), i) && (terms.soleWriter ==> i in world.ledger) && ContainedSeen(course)
      requires terms.faithful ==> observed == world && i in world.ledger
      modifies `course, `written, `journal
      ensures Inv() && OnlyDone(old(View()), View(), i)
      ensures o.Pass? ==> i in View().done
      ensures terms.faithful && i in old(View()).intents ==>
                (!o.Refused? <==> i in old(View()).done || terms.plan.pending[i].indexes == map[])
      ensures steady ==> !o.Killed?
    {
      hide SiteInv, Witnessed, Standing, ViewOf, LocalTransition.Inv;
      FollowsHere();
      var m := terms.plan.pending[i];
      if i !in View().intents { return Refused(Unjournaled); }
      if !(m.indexes.Keys <= observed.relations.Keys) { return Refused(IndexMissing); }
      if i in View().done { return Require(View().done[i].indexes == Reviewed(m, observed), IndexChanged); }
      if m.indexes != map[] { return Refused(IndexReceiptMissing); }
      o := Write(Done(i, map[], true));
    }

    /** A migration not yet in the ledger is applied right after its intent, over exactly the prefix before it. */
    method ApplyStep(i: Index) returns (o: Outcome<Code>)
      requires Inv() && View().marker.Some? && Interrupted(View()) && i < |terms.plan.pending|
      requires DoneBefore(View(), i) && i !in View().done && ContainedSeen(course)
      modifies `course, `written, `journal, `world, `trace
      ensures Inv() && OnlyDone(old(View()), View(), i)
      ensures o.Pass? ==> i in View().done && !View().done[i].recovered
      ensures o.Pass? && terms.soleWriter ==> world.ledger == terms.plan.LedgerAfter(i + 1)
      ensures terms.faithful && old(world).ledger == terms.plan.LedgerAfter(i) ==> !o.Refused?
      ensures steady ==> !o.Killed?
    {
      hide SiteInv, Witnessed, Standing, ViewOf, Plan.LedgerAfter, Follows, ContainedSeen, LocalTransition.Inv;
      var current: World;
      ghost var checked := course;
      current :- ObserveClean();
      StillSeen(checked, course);
      MigrationFollows(i);
      NotInPrefix(terms.plan, i);
      if !current.gates { return Refused(BackfillCandidate); }
      if current.ledger != terms.plan.LedgerAfter(i) { return Refused(LedgerChanged); }
      if !(terms.plan.pending[i].indexes.Keys !! current.relations.Keys) { return Refused(IndexWithoutLedger); }
      o := ApplyReady(i, current);
    }

    /** The intent, right after it the apply, and then what the database shows. */
    method ApplyReady(i: Index, current: World) returns (o: Outcome<Code>)
      requires Inv() && View().marker.Some? && Interrupted(View()) && i < |terms.plan.pending|
      requires DoneBefore(View(), i) && i !in View().done && ContainedSeen(course)
      requires current == world && ReadyFor(terms.plan, i, current)
      modifies `course, `written, `journal, `world, `trace
      ensures Inv() && OnlyDone(old(View()), View(), i)
      ensures o.Pass? ==> i in View().done && !View().done[i].recovered
      ensures o.Pass? ==> world.ledger == terms.plan.LedgerAfter(i + 1)
      ensures terms.faithful ==> !o.Refused?
      ensures steady ==> !o.Killed?
    {
      hide SiteInv, Witnessed, Standing, ViewOf, Plan.LedgerAfter, Follows, ContainedSeen, LocalTransition.Inv;
      NextLedger(terms.plan, i);
      :- Write(Intent(i));
      :- Apply(i, current);
      o := ConfirmApplied(i);
    }

    method ConfirmApplied(i: Index) returns (o: Outcome<Code>)
      requires Inv() && View().marker.Some? && Interrupted(View()) && i < |terms.plan.pending|
      requires DoneBefore(View(), i) && i !in View().done && i in View().intents && View().last == Some(Intent(i))
      modifies `course, `written, `journal, `world
      ensures Inv() && OnlyDone(old(View()), View(), i)
      ensures o.Pass? ==> i in View().done && !View().done[i].recovered
      ensures o.Pass? ==> world.ledger == terms.plan.LedgerAfter(i + 1)
      ensures terms.faithful && old(world).ledger == terms.plan.LedgerAfter(i + 1) ==> !o.Refused?
      ensures steady ==> !o.Killed?
    {
      hide SiteInv, Witnessed, Standing, ViewOf, Follows, ContainedSeen, LocalTransition.Inv;
      :- CheckHost();
      ghost var checked := course;
      var after: World;
      after :- ObserveClean();
      StillSeen(checked, course);
      MigrationFollows(i);
      if after.ledger != terms.plan.LedgerAfter(i + 1) { return Refused(LedgerMismatch); }
      var m := terms.plan.pending[i];
      if !(m.indexes.Keys <= after.relations.Keys) { return Refused(IndexMissing); }
      o := WriteReceipt(i);
    }

    /** The receipt of a migration: the definitions its indexes are shown with. */
    method WriteReceipt(i: Index) returns (o: Outcome<Code>)
      requires Inv() && View().marker.Some? && Interrupted(View()) && i < |terms.plan.pending|
      requires DoneBefore(View(), i) && i !in View().done && i in View().intents && View().last == Some(Intent(i))
      requires world.ledger == terms.plan.LedgerAfter(i + 1) && world.clean && ContainedSeen(course)
      requires terms.plan.pending[i].indexes.Keys <= world.relations.Keys
      modifies `course, `written, `journal
      ensures Inv() && OnlyDone(old(View()), View(), i)
      ensures o.Pass? ==> i in View().done && !View().done[i].recovered
      ensures (terms.faithful ==> !o.Refused?) && (steady ==> !o.Killed?)
    {
      hide SiteInv, Witnessed, Standing, ViewOf, LocalTransition.Inv, ContainedSeen, DoneBefore;
      assert i in terms.plan.LedgerAfter(i + 1);
      o := Write(Done(i, Reviewed(terms.plan.pending[i], world), false));
    }

    /** One migration: adopted when the observed ledger, a prefix of length k, holds it; else applied. */
    method Step(i: Index, observed: World, k: nat) returns (o: Outcome<Code>)
      requires Inv() && View().marker.Some? && Interrupted(View()) && i < |terms.plan.pending| && DoneBefore(View(), i)
      requires i >= k ==> i !in View().done
      requires terms.soleWriter ==> world.ledger == terms.plan.LedgerAfter(if i < k then k else i)
      requires terms.faithful ==> (i < k ==> observed == world && i in View().intents)
      modifies `course, `written, `journal, `world, `trace
      ensures Inv() && OnlyDone(old(View()), View(), i)
      ensures o.Pass? ==> i in View().done
      ensures o.Pass? && terms.soleWriter ==> world.ledger == terms.plan.LedgerAfter(if i + 1 < k then k else i + 1)
      ensures terms.faithful && i < k ==> world == old(world)
      ensures terms.faithful && (i < k ==> i in old(View()).done || terms.plan.pending[i].indexes == map[]) ==>
                !o.Refused?
      ensures terms.faithful && o.Pass? && i < k ==> i in old(View()).done || terms.plan.pending[i].indexes == map[]
      ensures steady ==> !o.Killed?
    {
      hide SiteInv, Witnessed, Standing, ViewOf, DoneBefore, Follows, OnlyDone, NoPendingIndex, Plan.LedgerAfter,
        Interrupted, LocalTransition.Inv;
      FollowsHere();
      OnlyDoneSame(View(), i);
      :- CheckHost();
      if i < k {
        o := Adopt(i, observed);
      } else {
        o := ApplyStep(i);
      }
    }

    /** The pending migrations in order: those in the ledger adopted, the others applied. */
    method Steps(observed: World, k: nat) returns (o: Outcome<Code>)
      requires Inv() && View().marker.Some? && Interrupted(View()) && StandsAt(terms.plan, observed.ledger, k)
      requires forall i <- View().done :: i < k
      requires terms.soleWriter ==> world.ledger == observed.ledger
      requires terms.faithful ==> observed == world
      modifies `course, `written, `journal, `world, `trace
      ensures Inv() && OnlySteps(old(View()), View())
      ensures o.Pass? ==> AllDone(terms.plan, View())
      ensures terms.faithful && steady ==> (o.Pass? <==> Receiptable(terms.plan, old(View()), old(world)))
      ensures terms.faithful && o.Pass? ==> world.ledger == terms.plan.LedgerAfter(|terms.plan.pending|)
      ensures steady ==> !o.Killed?
    {
      hide SiteInv, Witnessed, Standing, ViewOf, OnlyDone, StepsSoFar, DoneBefore, OnlySteps, AllDone, Receiptable,
        Interrupted;
      SiteIntents(terms, journal, world, trace);
      ghost var v := View();
      StepsStart(v, k);
      var n := |terms.plan.pending|;
      var i := 0;
      while i < n
        invariant 0 <= i <= n && Inv() && StepsSoFar(v, View(), i, k)
        invariant terms.soleWriter ==> world.ledger == terms.plan.LedgerAfter(if i < k then k else i)
        invariant terms.faithful && i < k ==> observed == world
        invariant terms.faithful ==> forall x: nat :: x < i && x < k ==>
                  x in v.done || terms.plan.pending[x].indexes == map[]
      {
        ghost var v1 := View();
        StepReady(v, v1, i, k);
        assert i < k ==> i in observed.ledger;
        o := Step(i, observed, k);
        StepsGoOn(v, v1, View(), i, k);
        if !o.Pass? {
          StepStops(terms.plan, v, i, k, observed);
          return;
        }
        i := i + 1;
      }
      StepsEnd(terms.plan, v, View(), k, observed);
      return Pass;
    }

    /** The whole ledger, the rehearsed schema, and every receipt still what is shown. */
    method Finish(start: nat) returns (o: Outcome<Code>)
      requires Inv() && View().marker.Some? && View().start == Some(start) && Interrupted(View())
      requires AllDone(terms.plan, View())
      modifies `course, `written, `journal, `world
      ensures Inv()
      ensures View() == old(View()).(verified := View().verified, complete := View().complete, last := View().last)
      ensures o.Pass? ==> View().verified && View().complete == Some(start) && Final(terms.plan, View(), world)
      ensures terms.faithful && old(world).ledger == terms.plan.LedgerAfter(|terms.plan.pending|) ==> !o.Refused?
      ensures steady ==> !o.Killed?
    {
      hide SiteInv, Witnessed, Standing, ViewOf, LocalTransition.Inv, PreflightSeen, SchemaSeen, ContainedSeen;
      var view: World;
      :- FinalChecks();
      ghost var checked := course;
      view :- ObserveClean();
      StillSeen(checked, course);
      ReceiptsFollow();
      if view.ledger != terms.plan.LedgerAfter(|terms.plan.pending|) { return Refused(LedgerChanged); }
      if !ReceiptsShown(terms.plan, View(), view) { return Refused(IndexChanged); }
      ReceiptsAre(terms.plan, View(), view);
      o := RecordComplete(start);
    }

    /** In a faithful database with the whole ledger every receipt is what is shown. */
    lemma ReceiptsFollow()
      requires Inv() && AllDone(terms.plan, View())
      ensures terms.faithful && world.ledger == terms.plan.LedgerAfter(|terms.plan.pending|) ==>
                ReceiptsShown(terms.plan, View(), world)
    {
      hide SiteInv, Witnessed, Standing, ViewOf;
      FollowsHere();
    }

    /** The preflight, the rehearsed schema and the host, one after the other. */
    method FinalChecks() returns (o: Outcome<Code>)
      requires Inv()
      modifies `course, `world
      ensures Inv() && (terms.faithful ==> !o.Refused? && world == old(world)) && (steady ==> !o.Killed?)
      ensures o.Pass? ==> PreflightSeen(course) && SchemaSeen(course) && ContainedSeen(course)
    {
      hide SiteInv, Witnessed, Standing, ViewOf, LocalTransition.Inv, PreflightSeen, SchemaSeen, ContainedSeen;
      var view: World;
      view :- Observe();
      FollowsHere();
      if !view.preflight { return Refused(Code.Preflight); }
      SeenNow();
      ghost var preflighted := course;
      view :- Observe();
      StillSeen(preflighted, course);
      FollowsHere();
      if !view.schema { return Refused(SchemaDivergence); }
      SeenNow();
      ghost var compared := course;
      o := CheckHost();
      StillSeen(compared, course);
    }

    method RecordComplete(start: nat) returns (o: Outcome<Code>)
      requires Inv() && View().marker.Some? && View().start == Some(start) && Interrupted(View())
      requires AllDone(terms.plan, View()) && Shown(terms.plan, View(), world, course, Preflighted)
      modifies `course, `written, `journal
      ensures Inv() && (terms.faithful ==> !o.Refused?)
      ensures View() == old(View()).(verified := View().verified, complete := View().complete, last := View().last)
      ensures o.Pass? ==> View().verified && View().complete == Some(start)
      ensures steady ==> !o.Killed?
    {
      hide SiteInv, Witnessed, Standing, ViewOf, LocalTransition.Inv;
      :- Write(Preflighted);
      if !View().verified {
        :- Write(Verified);
      }
      o := Write(Complete(start));
    }

    // -- a run ---------------------------------------------------------------------------------------

    /** What follows the marker, just written or found with a preflight passed afresh. */
    method AfterMarker(observed: World, start: nat) returns (o: Outcome<Code>)
      requires Inv() && View().marker.Some? && View().start == Some(start) && Interrupted(View())
      requires MarkedLast(View()) || PreflightSeen(course)
      requires terms.soleWriter ==> world.ledger == observed.ledger
      requires terms.faithful ==> observed == world
      modifies `course, `written, `journal, `world, `trace
      ensures Inv()
      ensures o.Pass? ==> Completed(terms.plan, View(), world)
      ensures terms.faithful && steady ==> (o.Pass? <==> Receiptable(terms.plan, old(View()), old(world)))
      ensures steady ==> !o.Killed?
      ensures o.Refused? ==>
                o.code in {LedgerNotPrefix, LedgerRegressed, JournalWrite} || View().last == Some(Failed)
    {
      hide SiteInv, Witnessed, Standing, ViewOf, LocalTransition.Inv, Plan.LedgerAfter, PreflightSeen;
      StandsHere();
      if !(exists k: nat :: k <= |terms.plan.pending| && observed.ledger == terms.plan.LedgerAfter(k)) {
        return Refused(LedgerNotPrefix);
      }
      var k: nat :| k <= |terms.plan.pending| && observed.ledger == terms.plan.LedgerAfter(k);
      if !(forall i <- View().done :: i in observed.ledger) { return Refused(LedgerRegressed); }
      o := Steps(observed, k);
      if o.Pass? {
        o := Finish(start);
      }
      if o.Refused? {
        var recorded := Write(Failed);
        if !recorded.Pass? { o := recorded; }
      }
    }

    /** One invocation. After the marker a run that did not complete is only taken up again with an explicit
        retry; a completed one is proved once more. */
    method Run(samePlan: bool, evidence: bool, retry: bool) returns (o: Outcome<Code>)
      requires Inv()
      modifies `course, `written, `journal, `world, `trace
      ensures Inv()
      ensures o.Pass? ==> Completed(terms.plan, View(), world)
      ensures o.Pass? ==>
                evidence && (old(View()).init ==> samePlan) && (NeedsRetry(old(View())) ==> retry)
      ensures !evidence || (old(View()).init && !samePlan) ==>
                trace == old(trace) && View().marker == old(View()).marker
      ensures NeedsRetry(old(View())) && !retry ==> !o.Pass? && trace == old(trace) && NeedsRetry(View())
      ensures steady ==> !o.Killed?
      ensures terms.faithful && steady ==>
                (o.Pass? <==> (old(View()).init ==> samePlan) && evidence && (NeedsRetry(old(View())) ==> retry)
                              && Receiptable(terms.plan, old(View()), old(world)))
    {
      hide SiteInv, Witnessed, Standing, ViewOf, Receiptable;
      ghost var v, w := View(), world;
      :- CheckHost();
      SameReceipts(terms.plan, v, View(), w, world);
      o := CheckedRun(samePlan, evidence, retry);
    }

    /** A run over a host just found contained. */
    method CheckedRun(samePlan: bool, evidence: bool, retry: bool) returns (o: Outcome<Code>)
      requires Inv() && world.contained
      modifies `course, `written, `journal, `world, `trace
      ensures Inv()
      ensures o.Pass? ==> Completed(terms.plan, View(), world)
      ensures o.Pass? ==>
                evidence && (old(View()).init ==> samePlan) && (NeedsRetry(old(View())) ==> retry)
      ensures !evidence || (old(View()).init && !samePlan) ==>
                trace == old(trace) && View().marker == old(View()).marker
      ensures NeedsRetry(old(View())) && !retry ==> !o.Pass? && trace == old(trace) && NeedsRetry(View())
      ensures steady ==> !o.Killed?
      ensures terms.faithful && steady ==>
                (o.Pass? <==> (old(View()).init ==> samePlan) && evidence && (NeedsRetry(old(View())) ==> retry)
                              && Receiptable(terms.plan, old(View()), old(world)))
    {
      hide SiteInv, Witnessed, Standing, ViewOf, Receiptable;
      ghost var v, w := View(), world;
      if View().init {
        if !samePlan { return Refused(PlanChanged); }
      } else {
        :- Write(Init);
      }
      var observed: World;
      observed :- ObserveClean();
      if NeedsRetry(View()) {
        if !retry { return Refused(RetryRequired); }
        :- Write(Retry);
      }
      SiteCompletes(terms, journal, world, trace);
      :- Write(RunStart);
      SameReceipts(terms.plan, v, View(), w, world);
      o := Started(observed, evidence);
    }

    /** What a run does once it is journaled as started. */
    method Started(observed: World, evidence: bool) returns (o: Outcome<Code>)
      requires Inv() && Interrupted(View()) && observed.clean
      requires terms.soleWriter ==> world.ledger == observed.ledger
      requires terms.faithful ==> observed == world
      modifies `course, `written, `journal, `world, `trace
      ensures Inv()
      ensures o.Pass? ==> Completed(terms.plan, View(), world) && evidence
      ensures !evidence ==> trace == old(trace) && View().marker == old(View()).marker
      ensures steady ==> !o.Killed?
      ensures terms.faithful && steady ==> (o.Pass? <==> evidence && Receiptable(terms.plan, old(View()), old(world)))
    {
      hide SiteInv, Witnessed, Standing, ViewOf, Receiptable, LocalTransition.Inv;
      ghost var v, w := View(), world;
      var start := View().start.value;
      if View().marker.None? {
        :- UpToMarker(observed, evidence);
      } else {
        if !evidence { return Refused(Evidence); }
        var view: World;
        view :- Observe();
        FollowsHere();
        if !view.preflight { return Refused(Code.Preflight); }
        SeenNow();
      }
      SameReceipts(terms.plan, v, View(), w, world);
      o := AfterMarker(observed, start);
    }
  }

  // -- what the transition rests on ------------------------------------------------------------------

  ghost predicate MarkedLast(v: View) {
    v.last.Some? && v.last.value.Marker?
  }

  ghost predicate Completed(p: Plan, v: View, w: World) {
    v.verified && v.complete == v.start && v.start.Some? && AllDone(p, v) && Final(p, v, w)
  }

  /** Only one migration may have been intended and receipted. */
  ghost predicate OnlyDone(v: View, v': View, i: Index) {
    && v' == v.(intents := v'.intents, done := v'.done, last := v'.last)
    && v.intents <= v'.intents <= v.intents + {i}
    && (forall k :: k in v.done ==> k in v'.done && v'.done[k] == v.done[k])
    && forall k :: k != i ==> (k in v'.done <==> k in v.done)
  }

  ghost predicate OnlyMarking(v: View, v': View) {
    v' == v.(restore := v'.restore, marker := v'.marker, last := v'.last)
  }

  ghost predicate OnlySteps(v: View, v': View) {
    v' == v.(intents := v'.intents, done := v'.done, last := v'.last)
  }

  /** The first i migrations are receipted; of the others in the observed prefix nothing changed. */
  ghost predicate StepsSoFar(v: View, v': View, i: nat, k: nat) {
    && OnlySteps(v, v') && DoneBefore(v', i)
    && (forall x <- v'.done :: x < k || x < i)
    && forall x: nat :: i <= x < k ==> (x in v'.done <==> x in v.done) && (x in v.intents ==> x in v'.intents)
  }

  lemma StepsGoOn(v: View, v1: View, v2: View, i: nat, k: nat)
    requires StepsSoFar(v, v1, i, k) && OnlyDone(v1, v2, i)
    ensures OnlySteps(v, v2)
    ensures i in v2.done ==> StepsSoFar(v, v2, i + 1, k)
  {
  }

  lemma StepsStart(v: View, k: nat)
    requires forall x <- v.done :: x < k
    ensures StepsSoFar(v, v, 0, k)
  {
  }

  lemma StepReady(v: View, v1: View, i: nat, k: nat)
    requires StepsSoFar(v, v1, i, k)
    ensures DoneBefore(v1, i) && (i >= k ==> i !in v1.done)
    ensures i < k ==> (i in v1.done <==> i in v.done) && (i in v.intents ==> i in v1.intents)
    ensures v1.marker == v.marker && (Interrupted(v1) <==> Interrupted(v))
  {
  }

  lemma StepStops(p: Plan, v: View, i: nat, k: nat, w: World)
    requires i < |p.pending| && StandsAt(p, w.ledger, k)
    ensures i < k && i !in v.done && p.pending[i].indexes != map[] ==> !Receiptable(p, v, w)
  {
  }

  lemma StepsEnd(p: Plan, v: View, v1: View, k: nat, w: World)
    requires StepsSoFar(v, v1, |p.pending|, k) && StandsAt(p, w.ledger, k) && p.Valid()
    ensures AllDone(p, v1) && OnlySteps(v, v1)
    ensures (forall x: nat :: x < |p.pending| && x < k ==> x in v.done || p.pending[x].indexes == map[]) ==>
              Receiptable(p, v, w)
  {
  }

  lemma OnlyDoneSame(v: View, i: Index)
    ensures OnlyDone(v, v, i)
  {
  }

  lemma SameReceipts(p: Plan, v: View, v': View, w: World, w': World)
    requires v'.done == v.done && v'.intents == v.intents
    ensures w'.ledger == w.ledger ==> (Receiptable(p, v', w') <==> Receiptable(p, v, w))
  {
  }

  lemma MovesKeep(t: Terms, j: seq<Event>, w: World, w': World, trace: seq<Emission>)
    requires SiteInv(t, j, w, trace) && Moves(t, w, w')
    ensures SiteInv(t, j, w', trace)
  {
    hide ViewOf, Lawful, WellFormed;
  }

  lemma Standstill(t: Terms, w: World)
    ensures Moves(t, w, w)
  {
  }

  lemma SiteFollows(t: Terms, j: seq<Event>, w: World, trace: seq<Emission>)
    requires SiteInv(t, j, w, trace)
    ensures t.plan.Valid() && (t.faithful ==> t.soleWriter && Follows(t.plan, ViewOf(j), w))
    ensures t.faithful && ViewOf(j).intents == {} ==> w.ledger == t.plan.baseline && NoPendingIndex(t.plan, w)
    ensures ViewOf(j).intents != {} ==> ViewOf(j).marker.Some?
  {
    FactsHold(t.plan, j);
    hide ViewOf, WellFormed, TraceInv;
    if t.faithful && ViewOf(j).intents == {} {
      assert forall i <- ViewOf(j).done :: i in ViewOf(j).intents;
      assert Receipts(ViewOf(j)) > 0 ==> 0 in ViewOf(j).done;
    }
  }

  lemma SiteCompletes(t: Terms, j: seq<Event>, w: World, trace: seq<Emission>)
    requires SiteInv(t, j, w, trace)
    ensures ViewOf(j).complete.Some? ==> ViewOf(j).complete.value <= |j|
  {
    FactsHold(t.plan, j);
    StartIsPast(j);
  }

  lemma SiteIntents(t: Terms, j: seq<Event>, w: World, trace: seq<Emission>)
    requires SiteInv(t, j, w, trace)
    ensures t.plan.Valid() && (t.faithful ==> t.soleWriter)
    ensures forall i <- ViewOf(j).done :: i < |t.plan.pending|
    ensures t.soleWriter ==> forall i: nat :: i < |t.plan.pending| && i in w.ledger ==> i in ViewOf(j).intents
  {
    FactsHold(t.plan, j);
  }

  lemma SiteStands(t: Terms, j: seq<Event>, w: World, trace: seq<Emission>)
    requires SiteInv(t, j, w, trace)
    ensures t.soleWriter ==> exists k: nat :: k <= |t.plan.pending| && w.ledger == t.plan.LedgerAfter(k)
    ensures t.soleWriter ==> forall i <- ViewOf(j).done :: i in w.ledger
  {
    FactsHold(t.plan, j);
  }

  lemma NextLedger(p: Plan, i: nat)
    ensures p.LedgerAfter(i + 1) == p.LedgerAfter(i) + {i}
  {
  }

  lemma NotInPrefix(p: Plan, i: nat)
    requires p.Valid() && i < |p.pending|
    ensures i !in p.LedgerAfter(i) && i in p.LedgerAfter(i + 1)
  {
  }

  // -- whole histories ------------------------------------------------------------------------------

  /** The migration was receipted by the very invocation that intended and applied it. */
  ghost predicate RecordedByApplier(j: seq<Event>, i: Index) {
    exists k :: 1 <= k < |j| && j[k].Done? && j[k].index == i && !j[k].recovered && j[k - 1] == Intent(i)
  }

  lemma {:induction false} LastIs(j: seq<Event>)
    ensures ViewOf(j).last == if j == [] then None else Some(j[|j| - 1])
  {
  }

  lemma {:induction false} ReceiptWasRecorded(p: Plan, j: seq<Event>, i: Index)
    requires WellFormed(p, j) && i in ViewOf(j).done
    ensures ViewOf(j).done[i].recovered || RecordedByApplier(j, i)
  {
    var q, e := j[..|j| - 1], j[|j| - 1];
    LastIs(q);
    if e.Done? && e.index == i {
      assert !e.recovered ==> j[|j| - 1 - 1] == q[|q| - 1];
    } else {
      ReceiptWasRecorded(p, q, i);
      if RecordedByApplier(q, i) {
        var k :| 1 <= k < |q| && q[k].Done? && q[k].index == i && !q[k].recovered && q[k - 1] == Intent(i);
        assert j[k] == q[k] && j[k - 1] == q[k - 1];
      }
    }
  }

  /** The marker was only written over a contained host and, right before it, the clean baseline; a migration only
      intended, and receipted by its applier, over a contained host and the exact prefix before and after it; and the
      database only reported verified after a preflight, the rehearsed schema, a contained host and, last, the whole
      ledger with every receipt as shown. */
  ghost predicate LooksSafe(p: Plan, j: seq<Event>, written: seq<Course>) {
    && |written| == |j| && (forall k :: 0 <= k < |j| ==> written[k] != [])
    && (forall k :: 0 <= k < |j| && j[k].Marker? ==>
          ContainedSeen(written[k]) && OnBaseline(p, written[k][|written[k]| - 1]))
    && (forall k :: 0 <= k < |j| && j[k].Intent? ==>
          ContainedSeen(written[k]) && ReadyFor(p, j[k].index, written[k][|written[k]| - 1]))
    && (forall k :: 0 <= k < |j| && j[k].Done? && !j[k].recovered ==>
          && ContainedSeen(written[k]) && written[k][|written[k]| - 1].clean
          && written[k][|written[k]| - 1].ledger == p.LedgerAfter(j[k].index + 1))
    && (forall k :: 0 <= k < |j| && j[k].Verified? ==>
          && k > 0 && PreflightSeen(written[k - 1]) && SchemaSeen(written[k - 1]) && ContainedSeen(written[k - 1])
          && Final(p, ViewOf(j[..k - 1]), written[k - 1][|written[k - 1]| - 1]))
  }

  /** The last run that was journaled as started, at s, has no completion after it. */
  ghost predicate LeftUnfinished(j: seq<Event>, s: nat) {
    s < |j| && j[s].RunStart? && (forall k :: s < k < |j| ==> !j[k].RunStart?) && Complete(s + 1) !in j
  }

  /** The start the view holds is that of the last run, and the marker is one of the events. */
  lemma {:induction false} StartIs(j: seq<Event>)
    ensures ViewOf(j).marker.Some? <==> exists e <- j :: e.Marker?
    ensures ViewOf(j).start.None? ==> forall k :: 0 <= k < |j| ==> !j[k].RunStart?
    ensures ViewOf(j).start.Some? ==>
              && 1 <= ViewOf(j).start.value <= |j| && j[ViewOf(j).start.value - 1].RunStart?
              && forall k :: ViewOf(j).start.value <= k < |j| ==> !j[k].RunStart?
  {
    if j != [] {
      var q, e := j[..|j| - 1], j[|j| - 1];
      StartIs(q);
      ViewAppend(q, e);
      assert j == q + [e];
      hide ViewOf;
      if x :| x in q && x.Marker? { assert x in j; }
    }
  }

  /** A completion names the start of its own run. */
  lemma {:induction false} CompleteIs(p: Plan, j: seq<Event>, s: nat)
    requires WellFormed(p, j)
    ensures Complete(s) in j ==> ViewOf(j).start.Some? && s <= ViewOf(j).start.value
    ensures ViewOf(j).start == Some(s) ==> (Complete(s) in j <==> ViewOf(j).complete == Some(s))
  {
    if j != [] {
      var q, e := j[..|j| - 1], j[|j| - 1];
      CompleteIs(p, q, s);
      StartIsPast(q);
      FactsHold(p, q);
      CompleteStep(p, ViewOf(q), |j|, e, s, Complete(s) in q);
      assert j == q + [e];
      hide Record, Facts, Justified;
    }
  }

  lemma CompleteStep(p: Plan, v: View, n: nat, e: Event, s: nat, there: bool)
    requires Facts(p, v) && Justified(p, v, e) && (v.start.Some? ==> v.start.value < n)
    requires there ==> v.start.Some? && s <= v.start.value
    requires v.start == Some(s) ==> (there <==> v.complete == Some(s))
    ensures there || e == Complete(s) ==> Record(v, n, e).start.Some? && s <= Record(v, n, e).start.value
    ensures Record(v, n, e).start == Some(s) ==> (there || e == Complete(s) <==> Record(v, n, e).complete == Some(s))
  {
    hide DoneFacts, AllDone, Unreceipted, DoneBefore;
  }

  /** A retry is asked for exactly when the marker is in the journal and the last run that started did not complete. */
  lemma RetryIsAsked(p: Plan, j: seq<Event>)
    requires WellFormed(p, j)
    ensures NeedsRetry(ViewOf(j)) <==> (exists e <- j :: e.Marker?) && exists s: nat :: LeftUnfinished(j, s)
  {
    UnreceiptedIsInterrupted(p, j);
    StartIs(j);
    if ViewOf(j).start.Some? {
      CompleteIs(p, j, ViewOf(j).start.value);
    }
    hide ViewOf, WellFormed, Unreceipted, NeedsRetry;
    var v := ViewOf(j);
    if Interrupted(v) {
      assert LeftUnfinished(j, v.start.value - 1);
    }
    if s: nat :| LeftUnfinished(j, s) {
      assert v.start.value - 1 == s;
    }
  }

  lemma {:induction false} PrefixWellFormed(p: Plan, j: seq<Event>, n: nat)
    requires WellFormed(p, j) && n < |j|
    ensures WellFormed(p, j[..n]) && Justified(p, ViewOf(j[..n]), j[n])
    decreases |j|
  {
    assert j[..|j|] == j;
    if n + 1 < |j| {
      var q := j[..|j| - 1];
      assert q[..n] == j[..n];
      PrefixWellFormed(p, q, n);
    }
  }

  lemma LooksAreSafe(t: Terms, j: seq<Event>, written: seq<Course>)
    requires WellFormed(t.plan, j) && Witnessed(t, j, written)
    ensures LooksSafe(t.plan, j, written)
  {
    hide ViewOf, WellFormed, OnBaseline, ReadyFor, Final, ContainedSeen, PreflightSeen, SchemaSeen, Plan.LedgerAfter,
      Fits;
    forall k | 0 <= k < |j|
      ensures Witness(t, ViewOf(j[..k]), written[k], j[k]) && Justified(t.plan, ViewOf(j[..k]), j[k])
    {
      PrefixWellFormed(t.plan, j, k);
    }
    forall k | 0 <= k < |j| && j[k].Verified?
      ensures k > 0 && PreflightSeen(written[k - 1]) && SchemaSeen(written[k - 1]) && ContainedSeen(written[k - 1])
              && Final(t.plan, ViewOf(j[..k - 1]), written[k - 1][|written[k - 1]| - 1])
    {
      var q := j[..k];
      LastBefore(t.plan, q, j[k]);
      assert q[..|q| - 1] == j[..k - 1] && q[|q| - 1] == j[k - 1];
      assert Witness(t, ViewOf(j[..k - 1]), written[k - 1], j[k - 1]);
    }
  }

  lemma LastBefore(p: Plan, q: seq<Event>, e: Event)
    requires Justified(p, ViewOf(q), e) && e.Verified?
    ensures q != [] && q[|q| - 1].Preflighted? && ViewOf(q[..|q| - 1]).marker.Some?
  {
    LastIs(q);
  }

  /** The ledger is the baseline and a prefix of the plan, every receipt is of that prefix, no migration was
      committed twice or sent out over a ledger that held it; and a database is only reported verified when
      every migration with indexes was receipted by the invocation that applied it. */
  ghost predicate Safe(t: Terms, j: seq<Event>, written: seq<Course>, w: World, trace: seq<Emission>) {
    && LooksSafe(t.plan, j, written)
    && (t.soleWriter ==>
          && (exists k: nat :: k <= |t.plan.pending| && w.ledger == t.plan.LedgerAfter(k))
          && (forall i <- ViewOf(j).done :: i in w.ledger)
          && forall a, b :: 0 <= a < b < |trace| && trace[a].took && trace[b].took ==> trace[a].index != trace[b].index)
    && (forall e <- trace :: e.index !in e.view.ledger)
    && (ViewOf(j).verified ==>
          forall i :: 0 <= i < |t.plan.pending| && t.plan.pending[i].indexes != map[] ==> RecordedByApplier(j, i))
  }

  lemma SiteIsSafe(t: Terms, j: seq<Event>, written: seq<Course>, w: World, trace: seq<Emission>)
    requires SiteInv(t, j, w, trace) && Witnessed(t, j, written)
    ensures Safe(t, j, written, w, trace)
  {
    hide ViewOf, WellFormed, LedgerInv, Follows, RecordedByApplier, LooksSafe, Witnessed;
    LooksAreSafe(t, j, written);
    SiteStands(t, j, w, trace);
    FactsHold(t.plan, j);
    forall e <- trace
      ensures e.index !in e.view.ledger
    {
      NotInPrefix(t.plan, e.index);
    }
    forall i | 0 <= i < |t.plan.pending| && t.plan.pending[i].indexes != map[] && ViewOf(j).verified
      ensures RecordedByApplier(j, i)
    {
      ReceiptWasRecorded(t.plan, j, i);
    }
  }

  lemma FreshSite(t: Terms, w: World)
    requires t.plan.Valid() && (t.faithful ==> t.soleWriter) && (t.soleWriter ==> w.ledger == t.plan.baseline)
    requires t.faithful ==> w.contained && w.clean && w.gates && w.preflight && w.schema && NoPendingIndex(t.plan, w)
    ensures SiteInv(t, [], w, [])
  {
  }

  /** Any number of runs, each killed anywhere or refused, each with any arguments. */
  method AnyHistory(terms: Terms, world: World, runs: nat) returns (last: LocalTransition)
    requires terms.plan.Valid() && (terms.faithful ==> terms.soleWriter)
    requires terms.soleWriter ==> world.ledger == terms.plan.baseline
    requires terms.faithful ==> world.contained && world.clean && world.gates && world.preflight && world.schema
    requires terms.faithful ==> NoPendingIndex(terms.plan, world)
    ensures last.terms == terms && last.Inv() && Safe(terms, last.journal, last.written, last.world, last.trace)
  {
    FreshSite(terms, world);
    hide SiteInv, Witnessed, Standing, Safe, ViewOf;
    last := new LocalTransition(terms, false, [], [], world, []);
    for k := 0 to runs
      invariant last.terms == terms && last.Inv()
    {
      last := new LocalTransition(terms, false, last.journal, last.written, last.world, last.trace);
      var _, _ := last.Observe();
      var samePlan, evidence, retry: bool := *, *, *;
      var _ := last.Run(samePlan, evidence, retry);
    }
    SiteIsSafe(terms, last.journal, last.written, last.world, last.trace);
  }
}
