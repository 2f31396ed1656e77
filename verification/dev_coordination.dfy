/** One mutex over a state file for promotion, reset and manual acceptance of a development environment.
    A process may be killed anywhere; the file is replaced atomically. */
module DevCoordination {
  import opened Outcomes

  type Token = nat
  type Owner = nat

  /** A validated package; `rest` stands for every field but its sequence and its seed. Its identity, a
      digest of all fields, is represented by the package. */
  datatype Package = Package(sequence: nat, seed: int, rest: int)

  datatype Reservation = Reservation(token: Token, owner: Owner, package: Package, expiresAt: int)

  datatype Receipt = Receipt(owner: Owner, package: Package, completedAt: int)

  datatype Reason = Expired | ByReset

  /** The state file. The failed candidate is kept while recovery is required. */
  datatype State = State(package: Option<Package>, reservation: Option<Reservation>, receipts: map<Token, Receipt>,
                         invalidated: map<Token, Reason>, recoveryRequired: bool, failedCandidate: Option<Package>)

  const EMPTY := State(None, None, map[], map[], false, None)

  datatype Operation = Deploy | Reset

  datatype Refusal = RecoveryProofRequired | AcceptanceReserved | OlderCandidate | ResetMismatch | ExecutionFailed
                   | NoRecoveryPending | RecoveryNotProven | InvalidReservation | Unavailable | NotYours
                   | PackageChanged
                   | NotThePreviousPackage

  /** How far an operation got before it ended or its process was killed: nothing written, the uncertainty
      written, or its outcome written. */
  datatype Fate = Nothing | Uncertain | Written

  // -- what the operations write -----------------------------------------------------------

  function ExpiredAt(s: State, now: int): State {
    if s.reservation.Some? && s.reservation.value.expiresAt <= now
    then s.(invalidated := s.invalidated[s.reservation.value.token := Expired], reservation := None)
    else s
  }

  function ResetAway(s: State): State {
    if s.reservation.Some?
    then s.(invalidated := s.invalidated[s.reservation.value.token := ByReset], reservation := None)
    else s
  }

  /** Why a transition is refused; nothing is written then. */
  function TransitionRefusal(s: State, p: Package, op: Operation, now: int): Option<Refusal> {
    var s := ExpiredAt(s, now);
    if s.recoveryRequired then Some(RecoveryProofRequired)
    else if s.reservation.Some? && op.Deploy? then Some(AcceptanceReserved)
    else if s.package.None? then None
    else
      var current := s.package.value;
      if p.sequence < current.sequence then Some(OlderCandidate)
      else if op.Reset? then
        if p.seed == current.seed || p.sequence != current.sequence || p.rest != current.rest then Some(ResetMismatch)
        else None
      else if p.sequence == current.sequence && p != current then Some(OlderCandidate)
      else None
  }

  /** Persisted before the first physical effect. */
  function Claimed(s: State, p: Package, now: int): State {
    ResetAway(ExpiredAt(s, now)).(recoveryRequired := true, failedCandidate := Some(p))
  }

  function Transitioned(s: State, p: Package, op: Operation, now: int, fate: Fate): State {
    if fate.Nothing? || TransitionRefusal(s, p, op, now).Some? then s
    else if fate.Uncertain? then Claimed(s, p, now)
    else Claimed(s, p, now).(package := Some(p), recoveryRequired := false, failedCandidate := None)
  }

  function Recovered(s: State, p: Package, proven: bool, fate: Fate): State {
    if s.recoveryRequired && proven && fate.Written?
    then s.(package := Some(p), recoveryRequired := false, failedCandidate := None) else s
  }

  /** A reservation needs a deployed package, no recovery pending and no live reservation. */
  predicate Available(s: State, now: int) {
    var s := ExpiredAt(s, now);
    !s.recoveryRequired && s.package.Some? && s.reservation.None?
  }

  function Reserved(s: State, token: Token, owner: Owner, ttl: nat, now: int, later: int, fate: Fate): State {
    if Available(s, now) && fate.Written?
    then ExpiredAt(s, now).(reservation := Some(Reservation(token, owner, s.package.value, later + ttl))) else s
  }

  function FinishRefusal(s: State, token: Token, owner: Owner, now: int): Option<Refusal> {
    var s := ExpiredAt(s, now);
    if s.reservation.None? || s.reservation.value.token != token || s.reservation.value.owner != owner then
      Some(NotYours)
    else if s.recoveryRequired || Some(s.reservation.value.package) != s.package then Some(PackageChanged)
    else None
  }

  /** An expiry found by a refused finish is still written. */
  function Finished(s: State, token: Token, owner: Owner, now: int, later: int, fate: Fate): State {
    var e := ExpiredAt(s, now);
    if !fate.Written? then s
    else if FinishRefusal(s, token, owner, now).Some? then e
    else e.(receipts := e.receipts[token := Receipt(owner, e.reservation.value.package, later)], reservation := None)
  }

  // -- what happens to the environment meanwhile -----------------------------------------------

  /** What physically runs: a package whose steps all finished, or nobody knows. */
  datatype Live = Healthy(package: Package) | Unknown

  /** An accepted token: the package, and how many physical operations had begun at its two ends. */
  datatype Acceptance = Acceptance(package: Package, reservedAt: nat, finishedAt: nat, live: Live)

  datatype World = World(live: Live, begun: nat, issued: set<Token>, reservedAt: nat, accepted: map<Token, Acceptance>)

  /** One operation by one process, with the clock readings, the token drawn and its fate. */
  datatype Action =
    | Transition(package: Package, op: Operation, now: int, fate: Fate)
    | Recover(package: Package, proven: bool, fate: Fate)
    | Reserve(token: Token, owner: Owner, ttl: nat, now: int, later: int, fate: Fate)
    | Finish(token: Token, owner: Owner, now: int, later: int, fate: Fate)

  function NextState(s: State, a: Action): State {
    match a
    case Transition(p, op, now, fate) => Transitioned(s, p, op, now, fate)
    case Recover(p, proven, fate) => Recovered(s, p, proven, fate)
    case Reserve(token, owner, ttl, now, later, fate) => Reserved(s, token, owner, ttl, now, later, fate)
    case Finish(token, owner, now, later, fate) => Finished(s, token, owner, now, later, fate)
  }

  function NextWorld(s: State, w: World, a: Action): World {
    match a
    case Transition(p, op, now, fate) =>
      if fate.Nothing? || TransitionRefusal(s, p, op, now).Some? then w
      else w.(begun := w.begun + 1, live := if fate.Written? then Healthy(p) else Unknown)
    case Recover(p, proven, fate) =>
      if !s.recoveryRequired then w
      else w.(begun := w.begun + 1, live := if proven then Healthy(p) else Unknown)
    case Reserve(token, owner, ttl, now, later, fate) =>
      if Available(s, now) && fate.Written? then w.(issued := w.issued + {token}, reservedAt := w.begun) else w
    case Finish(token, owner, now, later, fate) =>
      if fate.Written? && FinishRefusal(s, token, owner, now).None? && s.reservation.Some?
      then w.(accepted := w.accepted[token := Acceptance(s.reservation.value.package, w.reservedAt, w.begun, w.live)])
      else w
  }

  // -- what every operation keeps ------------------------------------------------------------------

  ghost function Held(s: State): set<Token> {
    if s.reservation.Some? then {s.reservation.value.token} else {}
  }

  /** Every issued token is in exactly one place. */
  ghost predicate TokensInv(s: State, w: World) {
    && w.issued == Held(s) + s.receipts.Keys + s.invalidated.Keys
    && Held(s) !! s.receipts.Keys && Held(s) !! s.invalidated.Keys && s.receipts.Keys !! s.invalidated.Keys
  }

  /** A live reservation names the deployed package, and nothing physical was begun since. */
  ghost predicate ReservationInv(s: State, w: World) {
    s.reservation.Some? ==>
      !s.recoveryRequired && s.package == Some(s.reservation.value.package) && w.reservedAt == w.begun
  }

  /** A package not under suspicion is the one that runs. */
  ghost predicate HealthInv(s: State, w: World) {
    && (!s.recoveryRequired && s.package.Some? ==> w.live == Healthy(s.package.value))
    && (s.failedCandidate.Some? <==> s.recoveryRequired)
  }

  /** Every receipt is for a package that ran, untouched, from its reservation to its completion. */
  ghost predicate ReceiptsInv(s: State, w: World) {
    && s.receipts.Keys == w.accepted.Keys
    && forall t <- s.receipts ::
         var a := w.accepted[t];
         a.package == s.receipts[t].package && a.reservedAt == a.finishedAt && a.live == Healthy(a.package)
  }

  ghost predicate Inv(s: State, w: World) {
    TokensInv(s, w) && ReservationInv(s, w) && HealthInv(s, w) && ReceiptsInv(s, w)
  }

  /** Tokens are drawn at random: a drawn one was never issued. */
  ghost predicate Drawn(w: World, a: Action) {
    a.Reserve? ==> a.token !in w.issued
  }

  /** Ending a reservation early moves its token among the invalidated. */
  lemma EndingKeepsTokens(s: State, w: World, now: int)
    requires TokensInv(s, w)
    ensures TokensInv(ExpiredAt(s, now), w) && TokensInv(ResetAway(s), w)
  {
    if s.reservation.Some? {
      assert ResetAway(s).invalidated.Keys == s.invalidated.Keys + Held(s);
      assert ExpiredAt(s, now) == s || ExpiredAt(s, now).invalidated.Keys == s.invalidated.Keys + Held(s);
    }
  }

  lemma FinishKeepsTokens(s: State, w: World, receipt: Receipt)
    requires TokensInv(s, w) && s.reservation.Some?
    ensures TokensInv(s.(receipts := s.receipts[s.reservation.value.token := receipt], reservation := None), w)
  {
    assert s.receipts[s.reservation.value.token := receipt].Keys == s.receipts.Keys + Held(s);
  }

  lemma StepKeepsTokens(s: State, w: World, a: Action)
    requires TokensInv(s, w) && Drawn(w, a)
    ensures TokensInv(NextState(s, a), NextWorld(s, w, a))
  {
    match a
    case Transition(_, _, now, _) =>
      hide ExpiredAt, ResetAway, TransitionRefusal;
      EndingKeepsTokens(s, w, now);
      EndingKeepsTokens(ExpiredAt(s, now), w, now);
    case Recover(_, _, _) =>
    case Reserve(_, _, _, now, _, _) =>
      hide ExpiredAt;
      EndingKeepsTokens(s, w, now);
    case Finish(token, owner, now, later, _) =>
      EndingKeepsTokens(s, w, now);
      var e := ExpiredAt(s, now);
      hide ExpiredAt;
      if e.reservation.Some? { FinishKeepsTokens(e, w, Receipt(owner, e.reservation.value.package, later)); }
  }

  lemma StepKeepsReservation(s: State, w: World, a: Action)
    requires ReservationInv(s, w) && HealthInv(s, w)
    ensures ReservationInv(NextState(s, a), NextWorld(s, w, a)) && HealthInv(NextState(s, a), NextWorld(s, w, a))
  {
  }

  lemma StepKeepsReceipts(s: State, w: World, a: Action)
    requires ReservationInv(s, w) && HealthInv(s, w) && ReceiptsInv(s, w)
    ensures ReceiptsInv(NextState(s, a), NextWorld(s, w, a))
  {
  }

  lemma StepKeepsInv(s: State, w: World, a: Action)
    requires Inv(s, w) && Drawn(w, a)
    ensures Inv(NextState(s, a), NextWorld(s, w, a))
  {
    hide TokensInv, ReservationInv, HealthInv, ReceiptsInv, NextState, NextWorld, Drawn;
    StepKeepsTokens(s, w, a);
    StepKeepsReservation(s, w, a);
    StepKeepsReceipts(s, w, a);
  }

  // -- what a caller may rely on, in clock and file alone ---------------------------------------------

  /** The time of a reservation is not over. */
  ghost predicate Running(s: State, now: int) {
    s.reservation.Some? && now < s.reservation.value.expiresAt
  }

  ghost predicate Mine(s: State, token: Token, owner: Owner) {
    s.reservation.Some? && s.reservation.value.token == token && s.reservation.value.owner == owner
  }

  /** A deploy keeps or raises the sequence, and repeats a sequence only with the same package; a reset keeps the
      package but for its seed, which it changes. */
  ghost predicate Succeeds(current: Package, p: Package, op: Operation) {
    if op.Deploy? then p.sequence > current.sequence || p == current
    else p == current.(seed := p.seed) && p.seed != current.seed
  }

  /** A transition may begin: no recovery is due, a deploy meets no running reservation, and the package may follow
      the deployed one. */
  ghost predicate Admitted(s: State, p: Package, op: Operation, now: int) {
    && !s.recoveryRequired && (op.Deploy? ==> !Running(s, now))
    && (s.package.Some? ==> Succeeds(s.package.value, p, op))
  }

  /** The invalidated tokens once the reservation of a state was ended for a reason. */
  ghost function Invalidated(s: State, reason: Reason): map<Token, Reason> {
    if s.reservation.Some? then s.invalidated[s.reservation.value.token := reason] else s.invalidated
  }

  // -- one operation over the files ------------------------------------------------------------------

  class DevCoordinator {
    var disk: State
    ghost var world: World

    constructor (disk: State, ghost world: World)
      ensures this.disk == disk && this.world == world
    {
      this.disk, this.world := disk, world;
    }

    ghost predicate Valid()
      reads this
    {
      Inv(disk, world)
    }

    /** The physical steps of a package: whether they all finished; none of it can be taken back. */
    method Execute(p: Package) returns (o: Outcome<Refusal>)
      modifies `world
      ensures world == old(world).(begun := old(world).begun + 1, live := if o.Pass? then Healthy(p) else Unknown)
      ensures o.Refused? ==> o.code == ExecutionFailed
    {
      o := *;
      if o.Refused? { o := Refused(ExecutionFailed); }
      world := world.(begun := world.begun + 1, live := if o.Pass? then Healthy(p) else Unknown);
    }

    /** Writes the state file; a process killed meanwhile wrote it or not. */
    method Write(state: State) returns (o: Outcome<Refusal>)
      modifies `disk
      ensures disk == state || (o.Killed? && disk == old(disk))
      ensures !o.Refused?
    {
      var lost := *;
      o := *;
      if o.Refused? { o := Pass; }
      if !o.Killed? || !lost { disk := state; }
    }

    /** Promotes or resets. Whatever happens, the file is left as it was, or it demands recovery, or it
        names a package whose execution returned. */
    method Transition(p: Package, op: Operation, now: int) returns (o: Outcome<Refusal>, ghost fate: Fate)
      requires Valid()
      modifies this
      ensures Valid()
      ensures disk == NextState(old(disk), Action.Transition(p, op, now, fate))
      ensures !Admitted(old(disk), p, op, now) ==> o.Refused? && disk == old(disk) && world == old(world)
      ensures !old(disk).recoveryRequired && op.Deploy? && Running(old(disk), now) ==> o == Refused(AcceptanceReserved)
      ensures Admitted(old(disk), p, op, now) && !o.Killed? ==>
                if o.Pass? then disk.package == Some(p) && !disk.recoveryRequired
                else o == Refused(ExecutionFailed) && disk.recoveryRequired
      ensures disk != old(disk) ==>
                && disk.reservation.None? && disk.receipts == old(disk).receipts
                && disk.invalidated == Invalidated(old(disk), if Running(old(disk), now) then ByReset else Expired)
      ensures disk == old(disk) || disk.recoveryRequired
              || (disk.package == Some(p) && world.live == Healthy(p) && disk.reservation.None?)
      ensures TransitionRefusal(old(disk), p, op, now).Some? && !o.Killed? ==>
                o == Refused(TransitionRefusal(old(disk), p, op, now).value)
      ensures TransitionRefusal(old(disk), p, op, now).Some? ==> disk == old(disk) && world == old(world)
      ensures o.Pass? ==> fate == Written && disk.package == Some(p) && !disk.recoveryRequired
      ensures TransitionRefusal(old(disk), p, op, now).None? && o.Refused? ==>
                disk.recoveryRequired && disk.package == old(disk).package && disk.failedCandidate == Some(p)
      ensures disk != old(disk) && disk.recoveryRequired ==> disk.package == old(disk).package
    {
      hide TokensInv, ReceiptsInv;
      fate := Nothing;
      var state := ExpiredAt(disk, now);
      if state.recoveryRequired { return Refused(RecoveryProofRequired), fate; }
      if state.reservation.Some? {
        if op.Deploy? { return Refused(AcceptanceReserved), fate; }
        state := ResetAway(state);
      }
      if state.package.Some? {
        var current := state.package.value;
        if p.sequence < current.sequence { return Refused(OlderCandidate), fate; }
        if op.Reset? {
          if p.seed == current.seed || p.sequence != current.sequence || p.rest != current.rest {
            return Refused(ResetMismatch), fate;
          }
        } else if p.sequence == current.sequence && p != current {
          return Refused(OlderCandidate), fate;
        }
      }
      state := state.(recoveryRequired := true, failedCandidate := Some(p));
      o, fate := Perform(p, op, now, state);
    }

    /** Uncertainty is written before the first physical step, the outcome after the last. */
    method Perform(p: Package, op: Operation, now: int, claimed: State) returns (o: Outcome<Refusal>, ghost fate: Fate)
      requires Valid() && claimed == Claimed(disk, p, now) && TransitionRefusal(disk, p, op, now).None?
      modifies this
      ensures Valid()
      ensures disk == NextState(old(disk), Action.Transition(p, op, now, fate))
      ensures fate.Written? ==> world.live == Healthy(p)
      ensures fate == Written || !o.Pass?
      ensures o.Refused? ==> o == Refused(ExecutionFailed) && fate == Uncertain
    {
      hide TokensInv, ReceiptsInv, ReservationInv, HealthInv, TransitionRefusal, Claimed;
      fate := Nothing;
      ghost var s, w := disk, world;
      var state := claimed;
      o := Write(state);
      StepKeepsInv(s, w, Action.Transition(p, op, now, Uncertain));
      StepKeepsInv(s, w, Action.Transition(p, op, now, Written));
      if o.Killed? {
        if disk == state {
          fate := Uncertain;
          world := world.(begun := world.begun + 1, live := Unknown);
        }
        return;
      }
      fate := Uncertain;
      o := Execute(p);
      if o.Killed? { return; }
      ghost var executed := o.Pass?;
      var failure := o;
      if o.Pass? {
        state := state.(package := Some(p), recoveryRequired := false, failedCandidate := None);
      }
      o := Write(state);
      if executed {
        if disk == state { fate := Written; } else { world := world.(live := Unknown); }
      }
      if o.Pass? { o := failure; }
    }

    /** Records separate evidence that a package runs again; the file changes only when it is proven. */
    method RecordRecovery(p: Package) returns (o: Outcome<Refusal>, ghost proven: bool, ghost fate: Fate)
      requires Valid()
      modifies this
      ensures Valid()
      ensures disk == NextState(old(disk), Recover(p, proven, fate))
      ensures !old(disk).recoveryRequired ==> o == Refused(NoRecoveryPending) && world == old(world)
      ensures o.Refused? ==> disk == old(disk)
      ensures disk != old(disk) ==>
                disk == old(disk).(package := Some(p), recoveryRequired := false, failedCandidate := None)
      ensures old(disk).recoveryRequired && proven && !o.Killed? ==> o.Pass?
      ensures o.Pass? ==> proven && disk.package == Some(p) && !disk.recoveryRequired && world.live == Healthy(p)
    {
      proven, fate := false, Nothing;
      if !disk.recoveryRequired { return Refused(NoRecoveryPending), proven, fate; }
      ghost var s, w := disk, world;
      o := Execute(p);
      proven := o.Pass?;
      StepKeepsInv(s, w, Recover(p, proven, Nothing));
      StepKeepsInv(s, w, Recover(p, proven, Written));
      if o.Refused? { return Refused(RecoveryNotProven), proven, fate; }
      if o.Killed? { return; }
      var state := disk.(package := Some(p), recoveryRequired := false, failedCandidate := None);
      o := Write(state);
      fate := if disk == s then Nothing else Written;
    }

    /** Reserves the deployed package for manual acceptance; the token is drawn at random. */
    method Reserve(token: Token, owner: Owner, ttl: nat, now: int, later: int)
      returns (o: Outcome<Refusal>, ghost fate: Fate)
      requires Valid() && token !in world.issued
      modifies this
      ensures Valid()
      ensures disk == NextState(old(disk), Action.Reserve(token, owner, ttl, now, later, fate))
      ensures o.Refused? ==> disk == old(disk) && world == old(world)
      ensures o.Pass? <==>
                && 1 <= ttl <= 3600 && !o.Killed?
                && !old(disk).recoveryRequired && old(disk).package.Some? && !Running(old(disk), now)
      ensures o.Pass? ==> token in world.issued
      ensures disk != old(disk) ==>
                disk == old(disk).(reservation := Some(Reservation(token, owner, old(disk).package.value, later + ttl)),
                                   invalidated := Invalidated(old(disk), Expired))
      ensures world.live == old(world).live
    {
      fate := Nothing;
      if !(1 <= ttl <= 3600) { return Refused(InvalidReservation), fate; }
      ghost var s, w := disk, world;
      var state := ExpiredAt(disk, now);
      if state.recoveryRequired || state.package.None? || state.reservation.Some? { return Refused(Unavailable), fate; }
      state := state.(reservation := Some(Reservation(token, owner, state.package.value, later + ttl)));
      o := Write(state);
      StepKeepsInv(s, w, Action.Reserve(token, owner, ttl, now, later, Written));
      if disk == state {
        fate := Written;
        world := NextWorld(s, w, Action.Reserve(token, owner, ttl, now, later, Written));
      }
    }

    /** Completes an acceptance; a refused one still writes the expiry it found. It is never refused for a
        changed package. */
    method Finish(token: Token, owner: Owner, now: int, later: int) returns (o: Outcome<Refusal>, ghost fate: Fate)
      requires Valid()
      modifies this
      ensures Valid()
      ensures disk == NextState(old(disk), Action.Finish(token, owner, now, later, fate))
      ensures o != Refused(PackageChanged)
      ensures o.Pass? ==>
                && token in disk.receipts && disk.receipts[token].owner == owner && disk.reservation.None?
                && old(disk).package == Some(disk.receipts[token].package)
                && world.live == Healthy(disk.receipts[token].package) && old(world).reservedAt == world.begun
      ensures Running(old(disk), now) && Mine(old(disk), token, owner) ==>
                && !o.Refused?
                && (o.Pass? ==>
                      disk == old(disk).(receipts := old(disk).receipts[token :=
                                           Receipt(owner, old(disk).reservation.value.package, later)],
                                         reservation := None))
      ensures !(Running(old(disk), now) && Mine(old(disk), token, owner)) ==>
                && !o.Pass? && (o.Refused? ==> o.code == NotYours)
                && (o.Refused? ==>
                      disk == if Running(old(disk), now) then old(disk)
                              else old(disk).(reservation := None, invalidated := Invalidated(old(disk), Expired)))
      ensures world.live == old(world).live && world.begun == old(world).begun
    {
      fate := Nothing;
      ghost var s, w := disk, world;
      var state := ExpiredAt(disk, now);
      var failure := Pass;
      if state.reservation.None? || state.reservation.value.token != token || state.reservation.value.owner != owner {
        failure := Refused(NotYours);
      } else if state.recoveryRequired || Some(state.reservation.value.package) != state.package {
        failure := Refused(PackageChanged);
      } else {
        state := state.(receipts := state.receipts[token := Receipt(owner, state.reservation.value.package, later)],
                        reservation := None);
      }
      o := Write(state);
      StepKeepsInv(s, w, Action.Finish(token, owner, now, later, Written));
      if disk == state {
        fate := Written;
        world := NextWorld(s, w, Action.Finish(token, owner, now, later, Written));
      }
      if o.Pass? { o := failure; }
    }
  }

  // -- whole histories --------------------------------------------------------------------------------

  ghost function StateAfter(s: State, w: World, actions: seq<Action>): (State, World) {
    if actions == [] then (s, w)
    else
      var (t, x) := StateAfter(s, w, actions[..|actions| - 1]);
      var a := actions[|actions| - 1];
      (NextState(t, a), NextWorld(t, x, a))
  }

  const START := World(Unknown, 0, {}, 0, map[])

  /** Every token drawn in the history was new when drawn. */
  ghost predicate AllDrawn(actions: seq<Action>) {
    actions == []
    || (AllDrawn(actions[..|actions| - 1])
        && Drawn(StateAfter(EMPTY, START, actions[..|actions| - 1]).1, actions[|actions| - 1]))
  }

  lemma {:induction false} HistoryKeepsInv(actions: seq<Action>)
    requires AllDrawn(actions)
    ensures var (s, w) := StateAfter(EMPTY, START, actions); Inv(s, w)
  {
    if actions != [] {
      var p := actions[..|actions| - 1];
      HistoryKeepsInv(p);
      var (s, w) := StateAfter(EMPTY, START, p);
      StepKeepsInv(s, w, actions[|actions| - 1]);
    }
  }

  /** The operation that drew a token, and the time it was reserved until. */
  ghost predicate ReservedBy(a: Action, token: Token, until: int) {
    a.Reserve? && a.fate.Written? && a.token == token && until == a.later + a.ttl
  }

  ghost predicate Clocked(a: Action, late: bool, until: int) {
    !a.Recover? && (late <==> until <= a.now)
  }

  ghost predicate Drew(actions: seq<Action>, token: Token, until: int) {
    exists k :: 0 <= k < |actions| && ReservedBy(actions[k], token, until)
  }

  /** How a token ended: at its clock the ending operation found its time over, or not. */
  ghost predicate EndedBy(actions: seq<Action>, token: Token, late: bool, end: End) {
    exists k, m, until: int :: 0 <= k < m < |actions|
      && ReservedBy(actions[k], token, until) && Clocked(actions[m], late, until) && Ends(actions[m], end)
  }

  datatype End = AnyEnd | ResetEnd | FinishEnd(token: Token, owner: Owner)

  ghost predicate Ends(a: Action, end: End) {
    match end
    case AnyEnd => true
    case ResetEnd => a.Transition? && a.op.Reset?
    case FinishEnd(token, owner) => a.Finish? && a.token == token && a.owner == owner
  }

  /** A token was invalidated as expired only by an operation whose clock had reached the time it was reserved until,
      by a reset only before that time, and receipted only before it, for the owner who finished it. */
  ghost predicate EndsInTime(actions: seq<Action>, s: State) {
    && (s.reservation.Some? ==> Drew(actions, s.reservation.value.token, s.reservation.value.expiresAt))
    && (forall t <- s.invalidated :: s.invalidated[t].Expired? ==> EndedBy(actions, t, true, AnyEnd))
    && (forall t <- s.invalidated :: s.invalidated[t].ByReset? ==> EndedBy(actions, t, false, ResetEnd))
    && (forall t <- s.receipts :: EndedBy(actions, t, false, FinishEnd(t, s.receipts[t].owner)))
  }

  lemma AnyEnds(a: Action)
    ensures Ends(a, AnyEnd)
  {
  }

  lemma StillEnded(p: seq<Action>, a: Action, token: Token, late: bool, end: End)
    requires EndedBy(p, token, late, end)
    ensures EndedBy(p + [a], token, late, end)
  {
    var k, m, until: int :| 0 <= k < m < |p|
      && ReservedBy(p[k], token, until) && Clocked(p[m], late, until) && Ends(p[m], end);
    assert (p + [a])[k] == p[k] && (p + [a])[m] == p[m];
  }

  lemma EndsNow(p: seq<Action>, a: Action, token: Token, until: int, end: End)
    requires Drew(p, token, until) && !a.Recover? && Ends(a, end)
    ensures EndedBy(p + [a], token, until <= a.now, end)
  {
    var k :| 0 <= k < |p| && ReservedBy(p[k], token, until);
    assert (p + [a])[k] == p[k] && (p + [a])[|p|] == a;
  }

  lemma DrewStill(p: seq<Action>, a: Action, token: Token, until: int)
    ensures Drew(p, token, until) ==> Drew(p + [a], token, until)
    ensures ReservedBy(a, token, until) ==> Drew(p + [a], token, until)
  {
    if Drew(p, token, until) {
      var k :| 0 <= k < |p| && ReservedBy(p[k], token, until);
      assert (p + [a])[k] == p[k];
    }
    assert (p + [a])[|p|] == a;
  }

  /** What one operation does to the three places of a token. */
  lemma StepEnds(s: State, a: Action)
    ensures var s' := NextState(s, a);
            && (s'.reservation.Some? && s'.reservation != s.reservation ==>
                  ReservedBy(a, s'.reservation.value.token, s'.reservation.value.expiresAt))
            && (forall t <- s'.invalidated :: (t in s.invalidated && s'.invalidated[t] == s.invalidated[t])
                 || (&& s.reservation.Some? && t == s.reservation.value.token && !a.Recover?
                     && (s'.invalidated[t].Expired? ==> s.reservation.value.expiresAt <= a.now)
                     && (s'.invalidated[t].ByReset? ==> a.now < s.reservation.value.expiresAt && Ends(a, ResetEnd))))
            && (forall t <- s'.receipts :: (t in s.receipts && s'.receipts[t] == s.receipts[t])
                 || (s.reservation.Some? && t == s.reservation.value.token && a.Finish?
                     && a.now < s.reservation.value.expiresAt && Ends(a, FinishEnd(t, s'.receipts[t].owner))))
  {
  }

  lemma {:induction false} TokensEndInTime(actions: seq<Action>)
    ensures EndsInTime(actions, StateAfter(EMPTY, START, actions).0)
  {
    if actions != [] {
      var p, a := actions[..|actions| - 1], actions[|actions| - 1];
      assert actions == p + [a];
      TokensEndInTime(p);
      var s, s' := StateAfter(EMPTY, START, p).0, StateAfter(EMPTY, START, actions).0;
      hide StateAfter, NextState, Drew, EndedBy, ReservedBy, Ends;
      StepEnds(s, a);
      EndsStep(p, s, a, s');
    }
  }

  lemma EndsStep(p: seq<Action>, s: State, a: Action, s': State)
    requires EndsInTime(p, s) && s' == NextState(s, a)
    ensures EndsInTime(p + [a], s')
  {
    hide NextState, Drew, EndedBy, ReservedBy, Ends;
    StepEnds(s, a);
    if s'.reservation.Some? {
      DrewStill(p, a, s'.reservation.value.token, s'.reservation.value.expiresAt);
    }
    forall t <- s'.invalidated
      ensures s'.invalidated[t].Expired? ==> EndedBy(p + [a], t, true, AnyEnd)
      ensures s'.invalidated[t].ByReset? ==> EndedBy(p + [a], t, false, ResetEnd)
    {
      var expired := s'.invalidated[t].Expired?;
      var end := if expired then AnyEnd else ResetEnd;
      if t in s.invalidated && s'.invalidated[t] == s.invalidated[t] {
        StillEnded(p, a, t, expired, end);
      } else {
        AnyEnds(a);
        EndsNow(p, a, t, s.reservation.value.expiresAt, end);
      }
    }
    forall t <- s'.receipts
      ensures EndedBy(p + [a], t, false, FinishEnd(t, s'.receipts[t].owner))
    {
      if t in s.receipts && s'.receipts[t] == s.receipts[t] {
        StillEnded(p, a, t, false, FinishEnd(t, s'.receipts[t].owner));
      } else {
        EndsNow(p, a, t, s.reservation.value.expiresAt, FinishEnd(t, s'.receipts[t].owner));
      }
    }
  }

  /** In every history an acceptance is never refused because the package changed: the branch is dead. */
  lemma {:induction false} PackageNeverChanges(actions: seq<Action>, token: Token, owner: Owner, now: int)
    requires AllDrawn(actions)
    ensures FinishRefusal(StateAfter(EMPTY, START, actions).0, token, owner, now) != Some(PackageChanged)
  {
    HistoryKeepsInv(actions);
  }

  /** A recovery of the recorded package, as the command line asks for before it takes the mutex. */
  ghost predicate OfRecorded(s: State, a: Action) {
    a.Recover? ==> s.package == Some(a.package)
  }

  ghost function Sequence(s: State): nat {
    if s.package.Some? then s.package.value.sequence else 0
  }

  /** One operation lowers the sequence exactly when it is a proven recovery of an older package. */
  lemma SequenceFalls(s: State, a: Action)
    ensures Sequence(NextState(s, a)) < Sequence(s)
            <==> a.Recover? && s.recoveryRequired && a.proven && a.fate.Written? && a.package.sequence < Sequence(s)
  {
  }

  ghost predicate AllOfRecorded(s: State, w: World, actions: seq<Action>) {
    actions == []
    || (AllOfRecorded(s, w, actions[..|actions| - 1])
        && OfRecorded(StateAfter(s, w, actions[..|actions| - 1]).0, actions[|actions| - 1]))
  }

  /** While every recovery is of the recorded package, no history lowers the sequence. */
  lemma {:induction false} SequenceNeverFalls(s: State, w: World, actions: seq<Action>)
    requires AllOfRecorded(s, w, actions)
    ensures Sequence(s) <= Sequence(StateAfter(s, w, actions).0)
  {
    if actions != [] {
      var p := actions[..|actions| - 1];
      SequenceNeverFalls(s, w, p);
      SequenceFalls(StateAfter(s, w, p).0, actions[|actions| - 1]);
    }
  }

  /** The recorded package is read before the mutex is taken. Between the two, others may recover, deploy a
      newer package and fail on the next: the older package is then recorded again, in a history in which every
      other recovery was of the recorded one. */
  lemma RecoveryCanLowerTheSequence()
    ensures exists history: seq<Action>, read: nat, p: Package ::
              && read <= |history| && AllDrawn(history) && AllOfRecorded(EMPTY, START, history)
              && StateAfter(EMPTY, START, history[..read]).0.recoveryRequired
              && StateAfter(EMPTY, START, history[..read]).0.package == Some(p)
              && var s := StateAfter(EMPTY, START, history).0;
                 Sequence(NextState(s, Recover(p, true, Written))) < Sequence(s)
  {
    var a, b, c := Package(1, 0, 0), Package(2, 0, 0), Package(3, 0, 0);
    var recover := Recover(a, true, Written);
    var first := [] + [Action.Transition(a, Deploy, 0, Written)] + [Action.Transition(b, Deploy, 0, Uncertain)];
    var history := first + [recover] + [Action.Transition(b, Deploy, 0, Written)]
                   + [Action.Transition(c, Deploy, 0, Uncertain)];
    OneMoreRecorded([], Action.Transition(a, Deploy, 0, Written));
    OneMoreRecorded([] + [Action.Transition(a, Deploy, 0, Written)], Action.Transition(b, Deploy, 0, Uncertain));
    OneMoreRecorded(first, recover);
    OneMoreRecorded(first + [recover], Action.Transition(b, Deploy, 0, Written));
    OneMoreRecorded(first + [recover] + [Action.Transition(b, Deploy, 0, Written)],
                    Action.Transition(c, Deploy, 0, Uncertain));
    assert history[..|first|] == first;
    assert Sequence(NextState(StateAfter(EMPTY, START, history).0, recover)) == 1;
  }

  lemma OneMoreRecorded(actions: seq<Action>, a: Action)
    requires AllDrawn(actions) && AllOfRecorded(EMPTY, START, actions) && !a.Reserve?
    requires OfRecorded(StateAfter(EMPTY, START, actions).0, a)
    ensures AllDrawn(actions + [a]) && AllOfRecorded(EMPTY, START, actions + [a])
    ensures StateAfter(EMPTY, START, actions + [a]).0 == NextState(StateAfter(EMPTY, START, actions).0, a)
  {
    assert (actions + [a])[..|actions|] == actions;
  }
}
