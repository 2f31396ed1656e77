/** Which database connections a host explains, and which are undeclared writers. */
module WindowBindings {

  type Pid = nat
  type Inode = nat
  type Id = nat

  // -- descendants ------------------------------------------------------------------------

  /** Each process of the path is the parent of the next. */
  ghost predicate Lineage(parents: map<Pid, Pid>, path: seq<Pid>) {
    forall i :: 0 < i < |path| ==> path[i] in parents && parents[path[i]] == path[i - 1]
  }

  /** There is a path of one or more child edges. */
  ghost predicate Descends(parents: map<Pid, Pid>, own: Pid, p: Pid) {
    exists path: seq<Pid> :: |path| >= 2 && path[0] == own && path[|path| - 1] == p && Lineage(parents, path)
  }

  lemma ChildDescends(parents: map<Pid, Pid>, own: Pid, p: Pid)
    requires p in parents && (parents[p] == own || Descends(parents, own, parents[p]))
    ensures Descends(parents, own, p)
  {
    var path: seq<Pid> := [own];
    if parents[p] != own {
      path :| |path| >= 2 && path[0] == own && path[|path| - 1] == parents[p] && Lineage(parents, path);
    }
    var longer := path + [p];
    assert Lineage(parents, longer) && longer[|longer| - 1] == p;
  }

  /** A set that holds every child of the root and of its own members holds every descendant. */
  lemma {:induction false} ClosedHoldsDescendants(parents: map<Pid, Pid>, own: Pid, held: set<Pid>, path: seq<Pid>)
    requires forall p <- parents :: parents[p] == own || parents[p] in held ==> p in held
    requires |path| >= 2 && path[0] == own && Lineage(parents, path)
    ensures path[|path| - 1] in held
  {
    var last := path[|path| - 1];
    assert last in parents && parents[last] == path[|path| - 2];
    if |path| > 2 {
      ClosedHoldsDescendants(parents, own, held, path[..|path| - 1]);
    }
  }

  /** The frontier loop: it ends on every parent map, cycles included, and finds exactly the processes
      reachable by one or more child edges. */
  method Descendants(parents: map<Pid, Pid>, own: Pid) returns (children: set<Pid>)
    ensures forall p: Pid :: p in children <==> Descends(parents, own, p)
  {
    children := {};
    var frontier := {own};
    while frontier != {}
      invariant children <= parents.Keys
      invariant forall p <- children :: Descends(parents, own, p)
      invariant frontier <= children + {own}
      invariant forall p <- parents ::
                  (parents[p] == own || parents[p] in children) && parents[p] !in frontier ==> p in children
      decreases |parents.Keys - children|, |frontier|
    {
      ghost var before := parents.Keys - children;
      forall p <- parents | parents[p] in frontier
        ensures Descends(parents, own, p)
      {
        ChildDescends(parents, own, p);
      }
      frontier := (set p <- parents | parents[p] in frontier) - children;
      children := children + frontier;
      if frontier != {} {
        var p :| p in frontier;
        assert p in before && p !in parents.Keys - children && parents.Keys - children <= before;
        StrictSubset(parents.Keys - children, before, p);
      }
    }
    forall p: Pid | Descends(parents, own, p)
      ensures p in children
    {
      var path :| |path| >= 2 && path[0] == own && path[|path| - 1] == p && Lineage(parents, path);
      ClosedHoldsDescendants(parents, own, children, path);
    }
  }

  lemma StrictSubset(a: set<Pid>, b: set<Pid>, p: Pid)
    requires a <= b && p in b && p !in a
    ensures |a| < |b|
  {
    assert b == a + (b - a);
    assert p in b - a;
  }

  // -- connections ------------------------------------------------------------------------

  /** A network namespace with its containers and the sockets it holds towards the database. */
  datatype Space = Space(namespace: nat, containers: set<Id>, sockets: seq<Inode>)

  /** The sockets of the host namespace, and of each other one, that nobody declared. */
  function Undeclared(spaces: seq<Space>, host: nat, declared: set<Id>): seq<Inode> {
    if spaces == [] then []
    else
      var s := spaces[|spaces| - 1];
      Undeclared(spaces[..|spaces| - 1], host, declared)
      + if s.namespace == host || s.containers <= declared then [] else s.sockets
  }

  function Observed(spaces: seq<Space>, host: nat): seq<Inode> {
    if spaces == [] then []
    else
      var s := spaces[|spaces| - 1];
      Observed(spaces[..|spaces| - 1], host) + if s.namespace == host then [] else s.sockets
  }

  function Strangers(sockets: seq<Inode>, own: set<Inode>): seq<Inode> {
    if sockets == [] then []
    else
      var i := sockets[|sockets| - 1];
      Strangers(sockets[..|sockets| - 1], own) + if i in own then [] else [i]
  }

  // -- the same, counted by where a socket stands ------------------------------------------------------

  /** The sockets of the spaces picked, each by its space and its place there. */
  ghost function Places(spaces: seq<Space>, pick: set<nat>): set<(nat, nat)> {
    set s: nat, k: nat | s < |spaces| && k < |spaces[s].sockets| && s in pick :: (s, k)
  }

  /** The namespaces other than the host's, and those of them with a container nobody declared. */
  ghost function Others(spaces: seq<Space>, host: nat): set<nat> {
    set s: nat | s < |spaces| && spaces[s].namespace != host
  }

  ghost function UndeclaredOthers(spaces: seq<Space>, host: nat, declared: set<Id>): set<nat> {
    set s: nat | s < |spaces| && spaces[s].namespace != host && !(spaces[s].containers <= declared)
  }

  ghost function StrangerPlaces(sockets: seq<Inode>, own: set<Inode>): set<nat> {
    set k: nat | k < |sockets| && sockets[k] !in own
  }

  ghost function Row(s: nat, n: nat): (row: set<(nat, nat)>)
    ensures |row| == n && forall x <- row :: x.0 == s
    ensures forall k: nat :: (s, k) in row <==> k < n
  {
    if n == 0 then {} else Row(s, n - 1) + {(s, n - 1)}
  }

  ghost predicate Placed(spaces: seq<Space>, pick: set<nat>, s: nat, k: nat) {
    s < |spaces| && k < |spaces[s].sockets| && s in pick
  }

  lemma PlacesAre(spaces: seq<Space>, pick: set<nat>)
    ensures forall s: nat, k: nat :: (s, k) in Places(spaces, pick) <==> Placed(spaces, pick, s, k)
  {
  }

  lemma PlacesStep(spaces: seq<Space>, pick: set<nat>, earlier: set<nat>)
    requires spaces != [] && forall s: nat :: s < |spaces| - 1 ==> (s in pick <==> s in earlier)
    ensures var p, n := spaces[..|spaces| - 1], |spaces| - 1;
            |Places(spaces, pick)| == |Places(p, earlier)| + if n in pick then |spaces[n].sockets| else 0
  {
    hide Places, Row, Placed;
    var p, n := spaces[..|spaces| - 1], |spaces| - 1;
    var before, row := Places(p, earlier), if n in pick then Row(n, |spaces[n].sockets|) else {};
    PlacesAre(spaces, pick);
    PlacesAre(p, earlier);
    forall s: nat, k: nat
      ensures (s, k) in Places(spaces, pick) <==> (s, k) in before || (s, k) in row
      ensures (s, k) in before ==> (s, k) !in row
    {
      PlacedStep(spaces, pick, earlier, s, k);
    }
    forall x: (nat, nat)
      ensures x in Places(spaces, pick) <==> x in before || x in row
      ensures x in before ==> x !in row
    {
      assert x == (x.0, x.1);
    }
    assert Places(spaces, pick) == before + row && before !! row;
  }

  lemma PlacedStep(spaces: seq<Space>, pick: set<nat>, earlier: set<nat>, s: nat, k: nat)
    requires spaces != [] && forall s: nat :: s < |spaces| - 1 ==> (s in pick <==> s in earlier)
    ensures var p, n := spaces[..|spaces| - 1], |spaces| - 1;
            && (Placed(p, earlier, s, k) ==> s < n)
            && (Placed(spaces, pick, s, k) <==>
                  Placed(p, earlier, s, k) || (n in pick && s == n && k < |spaces[n].sockets|))
  {
  }

  lemma {:induction false} CountedByPlace(spaces: seq<Space>, host: nat, declared: set<Id>)
    ensures |Observed(spaces, host)| == |Places(spaces, Others(spaces, host))|
    ensures |Undeclared(spaces, host, declared)| == |Places(spaces, UndeclaredOthers(spaces, host, declared))|
  {
    if spaces == [] {
      assert Places(spaces, Others(spaces, host)) == {} == Places(spaces, UndeclaredOthers(spaces, host, declared));
    } else {
      var p := spaces[..|spaces| - 1];
      CountedByPlace(p, host, declared);
      PlacesStep(spaces, Others(spaces, host), Others(p, host));
      PlacesStep(spaces, UndeclaredOthers(spaces, host, declared), UndeclaredOthers(p, host, declared));
    }
  }

  lemma {:induction false} StrangersByPlace(sockets: seq<Inode>, own: set<Inode>)
    ensures |Strangers(sockets, own)| == |StrangerPlaces(sockets, own)|
  {
    if sockets == [] {
      assert StrangerPlaces(sockets, own) == {};
    } else {
      var p, n := sockets[..|sockets| - 1], |sockets| - 1;
      StrangersByPlace(p, own);
      assert StrangerPlaces(sockets, own) == StrangerPlaces(p, own) + if sockets[n] in own then {} else {n};
    }
  }

  lemma {:induction false} StrangersAre(sockets: seq<Inode>, own: set<Inode>)
    ensures forall i :: i in Strangers(sockets, own) <==> i in sockets && i !in own
  {
    if sockets != [] {
      StrangersAre(sockets[..|sockets| - 1], own);
      assert sockets == sockets[..|sockets| - 1] + [sockets[|sockets| - 1]];
    }
  }

  lemma NoStrangers(sockets: seq<Inode>, own: set<Inode>)
    ensures Strangers(sockets, own) == [] <==> forall i <- sockets :: i in own
  {
    StrangersAre(sockets, own);
    var s := Strangers(sockets, own);
    assert s != [] ==> s[0] in s;
  }

  ghost predicate Explained(s: Space, host: nat, declared: set<Id>) {
    s.namespace == host || s.containers <= declared || s.sockets == []
  }

  lemma {:induction false} NoneUndeclared(spaces: seq<Space>, host: nat, declared: set<Id>)
    ensures Undeclared(spaces, host, declared) == [] <==> forall s <- spaces :: Explained(s, host, declared)
  {
    if spaces != [] {
      var earlier, last := spaces[..|spaces| - 1], spaces[|spaces| - 1];
      NoneUndeclared(earlier, host, declared);
      assert Undeclared(spaces, host, declared) == [] <==>
        Undeclared(earlier, host, declared) == [] && Explained(last, host, declared);
      hide Undeclared, Explained;
      assert spaces == earlier + [last] && last in spaces && forall s <- earlier :: s in spaces;
      forall s <- spaces ensures s in earlier || s == last {}
    }
  }

  /** Every connection is counted once, as declared or not: a namespace is declared only when all its
      containers are, and a host socket only when a descendant of the controller holds it. */
  method HostSide(spaces: seq<Space>, host: nat, declaredIds: set<Id>, hostSockets: seq<Inode>, own: set<Inode>)
    returns (declared: nat, undeclared: nat)
    ensures declared + undeclared == |Places(spaces, Others(spaces, host))| + |hostSockets|
    ensures undeclared == |Places(spaces, UndeclaredOthers(spaces, host, declaredIds))|
                          + |StrangerPlaces(hostSockets, own)|
    ensures undeclared == |Undeclared(spaces, host, declaredIds)| + |Strangers(hostSockets, own)|
  {
    declared, undeclared := 0, 0;
    for k := 0 to |spaces|
      invariant undeclared == |Undeclared(spaces[..k], host, declaredIds)|
      invariant declared + undeclared == |Observed(spaces[..k], host)|
    {
      assert spaces[..k + 1][..k] == spaces[..k];
      if spaces[k].namespace != host {
        if spaces[k].containers <= declaredIds {
          declared := declared + |spaces[k].sockets|;
        } else {
          undeclared := undeclared + |spaces[k].sockets|;
        }
      }
    }
    assert spaces[..|spaces|] == spaces;
    for k := 0 to |hostSockets|
      invariant undeclared == |Undeclared(spaces, host, declaredIds)| + |Strangers(hostSockets[..k], own)|
      invariant declared + undeclared == |Observed(spaces, host)| + k
    {
      assert hostSockets[..k + 1][..k] == hostSockets[..k];
      if hostSockets[k] in own { declared := declared + 1; } else { undeclared := undeclared + 1; }
    }
    assert hostSockets[..|hostSockets|] == hostSockets;
    CountedByPlace(spaces, host, declaredIds);
    StrangersByPlace(hostSockets, own);
  }

  /** The number of unknown writers. It is none exactly when every connection is explained: its namespace
      holds declared containers only, or its socket a descendant's; and when the database sees no more
      active sessions than the declared connections account for. */
  method Observe(spaces: seq<Space>, host: nat, declaredIds: set<Id>, hostSockets: seq<Inode>, own: set<Inode>,
      active: nat)
    returns (unknown: nat)
    ensures unknown == 0 <==>
              && (forall s <- spaces :: s.namespace == host || s.containers <= declaredIds || s.sockets == [])
              && (forall i <- hostSockets :: i in own)
              && active <= |Places(spaces, Others(spaces, host))| + |hostSockets|
    ensures var undeclared := |Places(spaces, UndeclaredOthers(spaces, host, declaredIds))|
                              + |StrangerPlaces(hostSockets, own)|;
            var declared := |Places(spaces, Others(spaces, host))| + |hostSockets| - undeclared;
            unknown == undeclared + if active > declared then active - declared else 0
  {
    var declared, undeclared := HostSide(spaces, host, declaredIds, hostSockets, own);
    unknown := undeclared + if active > declared then active - declared else 0;
    NoneUndeclared(spaces, host, declaredIds);
    NoStrangers(hostSockets, own);
  }
}
