/** The one data change the transition may make before the DDL, and the acceptance of its exact effect. */
module ReconciliationDelta {
  import opened Outcomes

  type UserId = nat
  type RowId = nat
  type Table = nat

  /** An account; `rest` stands for every column but its church and its linked person. */
  datatype User = User(church: int, person: Option<int>, rest: int)

  /** The detail of an audit row: its operation, when it names one, and everything else. */
  datatype Detail = Detail(operation: Option<int>, rest: int)

  /** `stamp` stands for the columns acceptance does not prescribe. */
  datatype AuditRow = AuditRow(action: int, actor: UserId, targetKind: int, target: UserId, actorEmail: Option<int>,
                               targetName: Option<int>, detail: Detail, stamp: int)

  /** The database by tables; a digest of rows is represented by the rows. */
  datatype Data = Data(users: map<UserId, User>, audit: map<RowId, AuditRow>, others: map<Table, int>)

  const RECONCILE := 1
  const APP_USER := 1

  datatype Case = Case(target: UserId, person: int, operation: int, operator: UserId, detail: Detail) {
    predicate Valid() {
      detail.operation == Some(operation)
    }

    /** A row of this operation. */
    predicate Mine(a: AuditRow) {
      a.action == RECONCILE && a.detail.operation == Some(operation)
    }

    /** A row exactly as the service writes it. */
    predicate Exact(a: AuditRow) {
      && Mine(a) && a.actor == operator && a.targetKind == APP_USER && a.target == target
      && a.actorEmail.None? && a.targetName.None? && a.detail == detail
    }
  }

  /** What is journaled before the apply, and read again after it. */
  datatype Scope = Scope(others: map<Table, int>, usersOthers: map<UserId, User>, targetRow: Option<(int, int)>,
                         targetPerson: Option<int>, auditOthers: map<RowId, AuditRow>, operationRows: nat,
                         exactRows: nat)

  function ScopeOf(c: Case, d: Data): Scope {
    Scope(d.others,
          map u <- d.users | u != c.target :: d.users[u],
          if c.target in d.users then Some((d.users[c.target].church, d.users[c.target].rest)) else None,
          if c.target in d.users then d.users[c.target].person else None,
          map a <- d.audit | !c.Mine(d.audit[a]) :: d.audit[a],
          |set a <- d.audit | c.Mine(d.audit[a])|,
          |set a <- d.audit | c.Exact(d.audit[a])|)
  }

  /** Two accounts of one church linked to the same person. */
  predicate Duplicate(d: Data) {
    exists u <- d.users, v <- d.users ::
      u != v && d.users[u].person.Some? && d.users[u].church == d.users[v].church
          && d.users[u].person == d.users[v].person
  }

  /** What the baseline must show before the apply is let go. */
  predicate Precondition(c: Case, base: Scope) {
    base.targetPerson == Some(c.person) && base.operationRows == 0
  }

  /** The scope read after the apply differs from the baseline's in nothing but what the apply may do. */
  predicate Matches(c: Case, base: Scope, d: Data) {
    var now := ScopeOf(c, d);
    && now.others == base.others && now.usersOthers == base.usersOthers && now.targetRow == base.targetRow
    && now.targetPerson.None? && now.auditOthers == base.auditOthers
    && now.operationRows == 1 && now.exactRows == 1
  }

  predicate Accepted(c: Case, base: Scope, redisThen: int, d: Data, redis: int) {
    Matches(c, base, d) && redis == redisThen && !Duplicate(d)
  }

  /** The authorized effect: one account unlinked, one audit row of the operation added, nothing else. */
  ghost predicate AuthorizedEffect(c: Case, before: Data, d: Data) {
    && c.target in before.users
    && d.users == before.users[c.target := before.users[c.target].(person := None)]
    && d.others == before.others
    && exists a: RowId :: a in d.audit && a !in before.audit && ByTheService(c, d.audit[a])
        && d.audit == before.audit[a := d.audit[a]]
  }

  /** The audit row the service writes for this operation, and no other. */
  ghost predicate ByTheService(c: Case, a: AuditRow) {
    && a.action == RECONCILE && a.detail.operation == Some(c.operation) && a.detail == c.detail
    && a.actor == c.operator && a.targetKind == APP_USER && a.target == c.target
    && a.actorEmail.None? && a.targetName.None?
  }

  /** No two accounts of one church are linked to the same person. */
  ghost predicate LinkedOnce(d: Data) {
    forall u <- d.users, v <- d.users ::
      u != v && d.users[u].church == d.users[v].church && d.users[u].person == d.users[v].person ==>
        d.users[u].person.None?
  }

  lemma DuplicateIs(d: Data)
    ensures Duplicate(d) <==> !LinkedOnce(d)
  {
  }

  // -- exactness ---------------------------------------------------------------------------------

  lemma SingletonOf<T>(s: set<T>) returns (x: T)
    requires |s| == 1
    ensures s == {x}
  {
    x :| x in s;
    assert |s - {x}| == 0;
  }

  lemma AcceptedUsers(c: Case, before: Data, d: Data)
    requires c.target in before.users
    requires ScopeOf(c, d).usersOthers == ScopeOf(c, before).usersOthers
    requires ScopeOf(c, d).targetRow == ScopeOf(c, before).targetRow && ScopeOf(c, d).targetPerson.None?
    ensures d.users == before.users[c.target := before.users[c.target].(person := None)]
  {
    var mine, theirs := ScopeOf(c, d).usersOthers, ScopeOf(c, before).usersOthers;
    assert c.target in d.users;
    var expected := before.users[c.target := before.users[c.target].(person := None)];
    forall u: UserId
      ensures u in d.users <==> u in expected
      ensures u in d.users ==> d.users[u] == expected[u]
    {
      assert u != c.target ==> (u in mine <==> u in d.users) && (u in theirs <==> u in before.users);
    }
  }

  lemma AcceptedAudit(c: Case, before: Data, d: Data) returns (a: RowId)
    requires ScopeOf(c, before).operationRows == 0
    requires ScopeOf(c, d).auditOthers == ScopeOf(c, before).auditOthers
    requires ScopeOf(c, d).operationRows == 1 && ScopeOf(c, d).exactRows == 1
    ensures a in d.audit && a !in before.audit && c.Exact(d.audit[a]) && d.audit == before.audit[a := d.audit[a]]
  {
    var mine := set x <- d.audit | c.Mine(d.audit[x]);
    var exact := set x <- d.audit | c.Exact(d.audit[x]);
    a := SingletonOf(mine);
    var b := SingletonOf(exact);
    assert b in exact && b in mine && a in mine;
    var none := set x <- before.audit | c.Mine(before.audit[x]);
    assert none == {};
    var others, theirs := ScopeOf(c, d).auditOthers, ScopeOf(c, before).auditOthers;
    forall x: RowId
      ensures x in before.audit ==> !c.Mine(before.audit[x])
      ensures x in d.audit && x != a ==> !c.Mine(d.audit[x])
      ensures x in before.audit <==> x in others
      ensures x in d.audit <==> x in others || x == a
      ensures x in before.audit ==> d.audit[x] == before.audit[x]
    {
      assert x in before.audit && c.Mine(before.audit[x]) ==> x in none;
      assert x in d.audit && c.Mine(d.audit[x]) ==> x in mine;
      assert x in theirs <==> x in before.audit && !c.Mine(before.audit[x]);
      assert x in others <==> x in d.audit && !c.Mine(d.audit[x]);
    }
    assert d.audit == before.audit[a := d.audit[a]];
  }

  lemma ExactIs(c: Case)
    ensures forall a: AuditRow :: c.Exact(a) <==> ByTheService(c, a)
  {
  }

  lemma EffectShowsInScope(c: Case, before: Data, d: Data, a: RowId)
    requires c.target in before.users && ScopeOf(c, before).operationRows == 0
    requires d.users == before.users[c.target := before.users[c.target].(person := None)] && d.others == before.others
    requires a in d.audit && a !in before.audit && c.Exact(d.audit[a]) && d.audit == before.audit[a := d.audit[a]]
    ensures ScopeOf(c, d).usersOthers == ScopeOf(c, before).usersOthers
    ensures ScopeOf(c, d).targetRow == ScopeOf(c, before).targetRow && ScopeOf(c, d).targetPerson.None?
    ensures ScopeOf(c, d).auditOthers == ScopeOf(c, before).auditOthers
    ensures ScopeOf(c, d).operationRows == 1 && ScopeOf(c, d).exactRows == 1
  {
    var none := set x <- before.audit | c.Mine(before.audit[x]);
    assert none == {};
    forall x <- before.audit ensures !c.Mine(before.audit[x]) { assert c.Mine(before.audit[x]) ==> x in none; }
    assert (set x <- d.audit | c.Mine(d.audit[x])) == {a};
    assert (set x <- d.audit | c.Exact(d.audit[x])) == {a};
    assert ScopeOf(c, d).usersOthers == ScopeOf(c, before).usersOthers;
    assert ScopeOf(c, d).auditOthers == ScopeOf(c, before).auditOthers;
  }

  /** The apply is let go exactly for the account linked to the person named, and no row of the operation before it. */
  lemma PreconditionIsExact(c: Case, before: Data)
    ensures Precondition(c, ScopeOf(c, before))
            <==> && c.target in before.users && before.users[c.target].person == Some(c.person)
                 && forall a <- before.audit ::
                      before.audit[a].action == RECONCILE ==> before.audit[a].detail.operation != Some(c.operation)
  {
    var mine := set a <- before.audit | c.Mine(before.audit[a]);
    if forall a <- before.audit :: !c.Mine(before.audit[a]) {
      assert mine == {};
    } else {
      var a :| a in before.audit && c.Mine(before.audit[a]);
      assert a in mine;
    }
  }

  /** A read of the database matches a baseline journaled before the apply exactly when it is that database with
      the authorized effect. */
  lemma MatchIsExact(c: Case, before: Data, d: Data)
    requires Precondition(c, ScopeOf(c, before))
    ensures Matches(c, ScopeOf(c, before), d) <==> AuthorizedEffect(c, before, d)
  {
    ExactIs(c);
    hide Case.Exact, Case.Mine, ByTheService;
    if Matches(c, ScopeOf(c, before), d) {
      AcceptedUsers(c, before, d);
      var a := AcceptedAudit(c, before, d);
    }
    if AuthorizedEffect(c, before, d) {
      var a: RowId :| a in d.audit && a !in before.audit && ByTheService(c, d.audit[a])
          && d.audit == before.audit[a := d.audit[a]];
      EffectShowsInScope(c, before, d, a);
    }
  }

  /** A state is accepted exactly when it is the baseline with the authorized effect, the same Redis, and no
      duplicate link left. */
  lemma AcceptanceIsExact(c: Case, before: Data, redisBefore: int, d: Data, redis: int)
    requires Precondition(c, ScopeOf(c, before))
    ensures Accepted(c, ScopeOf(c, before), redisBefore, d, redis)
            <==> AuthorizedEffect(c, before, d) && redis == redisBefore && LinkedOnce(d)
  {
    hide Duplicate, LinkedOnce, Matches, AuthorizedEffect;
    DuplicateIs(d);
    MatchIsExact(c, before, d);
  }

  /** Nothing can be accepted twice over: the authorized effect removes its own precondition. */
  lemma EffectIsNotRepeatable(c: Case, before: Data, d: Data)
    requires Precondition(c, ScopeOf(c, before)) && AuthorizedEffect(c, before, d)
    ensures !Precondition(c, ScopeOf(c, d))
  {
    var a: RowId :| a in d.audit && a !in before.audit && ByTheService(c, d.audit[a])
        && d.audit == before.audit[a := d.audit[a]];
    EffectShowsInScope(c, before, d, a);
  }
}
