/** The sidecar usage index of src/container_clean.ts: the index built in one pass agrees
    with the definition of "in use" on the snapshot, whatever the order of the containers. */
module SidecarUsage {
  import opened Wrappers

  type Id = nat      // container ids; 0 is the empty string
  type Name = nat
  type Net = nat

  /** `joins`: the id in a `container:<id>` network mode. */
  datatype Container = Container(
    name: Name, id: Id, running: bool, sidecar: bool, joins: Option<Id>, networks: seq<Net>)

  /** `managed`: what `isNasManagedNetwork` says of its labels and name. */
  datatype Network = Network(managed: bool, members: seq<Name>)

  /** `managedByName`: the networks whose name alone marks them as managed. */
  datatype Snapshot = Snapshot(containers: seq<Container>, networks: map<Net, Network>, managedByName: set<Net>)

  predicate Managed(s: Snapshot, n: Net) {
    if n in s.networks then s.networks[n].managed else n in s.managedByName
  }

  // ---------------------------------------------------------------- the definition

  /** A running container that is not a sidecar. */
  predicate Worker(c: Container) {
    c.running && !c.sidecar
  }

  predicate Joins(cs: seq<Container>, c: Container, owner: Id) {
    c in cs && Worker(c) && c.joins == Some(owner)
  }

  /** Some worker sits in the namespace of the container with this id. */
  ghost predicate Hosted(cs: seq<Container>, owner: Id) {
    exists c :: Joins(cs, c, owner)
  }

  /** Some worker sits in the namespace of a container on network `n`. */
  ghost predicate HostedOn(cs: seq<Container>, n: Net) {
    exists o :: o in cs && o.id != 0 && n in o.networks && Hosted(cs, o.id)
  }

  ghost predicate HasWorker(s: Snapshot, n: Net, except: Name) {
    n in s.networks && exists c :: c in s.containers && Worker(c) && c.name != except && c.name in s.networks[n].members
  }

  /** In use: running, and some worker joins its namespace, is a member of one of its
      managed networks, or joins the namespace of a container on one. */
  ghost predicate InUse(s: Snapshot, c: Container) {
    c.running
    && ((c.id != 0 && Hosted(s.containers, c.id))
        || exists n :: n in c.networks && Managed(s, n) && (HostedOn(s.containers, n) || HasWorker(s, n, c.name)))
  }

  // ---------------------------------------------------------------- the index

  datatype Index = Index(joinersByOwnerId: map<Id, seq<Container>>, virtualMembers: map<Net, seq<Container>>)

  predicate Filled<K>(m: map<K, seq<Container>>, k: K) {
    k in m && m[k] != []
  }

  /** `byId`: the last container with each non-empty id. */
  function ById(cs: seq<Container>): map<Id, Container> {
    if cs == [] then map[]
    else
      var c := cs[|cs| - 1];
      if c.id == 0 then ById(cs[..|cs| - 1]) else ById(cs[..|cs| - 1])[c.id := c]
  }

  ghost predicate DistinctIds(cs: seq<Container>) {
    forall a, b | a in cs && b in cs && a.id == b.id != 0 :: a == b
  }

  ghost predicate DistinctNames(cs: seq<Container>) {
    forall a, b | a in cs && b in cs && a.name == b.name :: a == b
  }

  lemma {:induction false} ByIdFinds(cs: seq<Container>)
    ensures forall i | i in ById(cs) :: ById(cs)[i] in cs && ById(cs)[i].id == i && i != 0
    ensures forall c | c in cs && c.id != 0 :: c.id in ById(cs)
  {
    if cs != [] {
      ByIdFinds(cs[..|cs| - 1]);
      assert cs == cs[..|cs| - 1] + [cs[|cs| - 1]];
    }
  }

  /** Whom the loop credits: the owner of candidate `c`, and each of the owner's networks. */
  predicate Credits(c: Container, owner: Id) {
    Worker(c) && c.joins == Some(owner)
  }

  predicate CreditsNet(byId: map<Id, Container>, c: Container, n: Net) {
    Worker(c) && c.joins.Some? && c.joins.value in byId && n in byId[c.joins.value].networks
  }

  /** What the index must say of the containers looked at so far. */
  ghost predicate Indexes(byId: map<Id, Container>, done: seq<Container>, x: Index) {
    && (forall o :: Filled(x.joinersByOwnerId, o) <==> exists c :: c in done && Credits(c, o))
    && (forall n :: Filled(x.virtualMembers, n) <==> exists c :: c in done && CreditsNet(byId, c, n))
  }

  method AddTo<K(==)>(m: map<K, seq<Container>>, k: K, c: Container)
    returns (m': map<K, seq<Container>>)
    ensures forall j :: Filled(m', j) <==> Filled(m, j) || j == k
  {
    m' := if k in m then m[k := m[k] + [c]] else m[k := [c]];
  }

  method AddToAll(m: map<Net, seq<Container>>, nets: seq<Net>, c: Container)
    returns (m': map<Net, seq<Container>>)
    ensures forall n :: Filled(m', n) <==> Filled(m, n) || n in nets
  {
    m' := m;
    for i := 0 to |nets|
      invariant forall n :: Filled(m', n) <==> Filled(m, n) || n in nets[..i]
    {
      assert nets[..i + 1] == nets[..i] + [nets[i]];
      m' := AddTo(m', nets[i], c);
    }
    assert nets[..|nets|] == nets;
  }

  lemma IndexesStep(byId: map<Id, Container>, done: seq<Container>, c: Container, x: Index, x': Index)
    requires Indexes(byId, done, x)
    requires forall o :: Filled(x'.joinersByOwnerId, o) <==> Filled(x.joinersByOwnerId, o) || Credits(c, o)
    requires forall n :: Filled(x'.virtualMembers, n) <==> Filled(x.virtualMembers, n) || CreditsNet(byId, c, n)
    ensures Indexes(byId, done + [c], x')
  {
    forall o ensures Filled(x'.joinersByOwnerId, o) <==> exists d :: d in done + [c] && Credits(d, o) {
      if Credits(c, o) { assert c in done + [c]; }
      if d :| d in done && Credits(d, o) { assert d in done + [c]; }
    }
    forall n ensures Filled(x'.virtualMembers, n) <==> exists d :: d in done + [c] && CreditsNet(byId, d, n) {
      if CreditsNet(byId, c, n) { assert c in done + [c]; }
      if d :| d in done && CreditsNet(byId, d, n) { assert d in done + [c]; }
    }
  }

  /** One turn of the loop of `buildSidecarUsageIndex`. */
  method IndexOne(byId: map<Id, Container>, c: Container, x: Index)
    returns (x': Index)
    ensures forall o :: Filled(x'.joinersByOwnerId, o) <==> Filled(x.joinersByOwnerId, o) || Credits(c, o)
    ensures forall n :: Filled(x'.virtualMembers, n) <==> Filled(x.virtualMembers, n) || CreditsNet(byId, c, n)
  {
    if !c.running || c.sidecar || c.joins.None? { return x; }
    var joiners := AddTo(x.joinersByOwnerId, c.joins.value, c);
    var members := x.virtualMembers;
    if c.joins.value in byId { members := AddToAll(members, byId[c.joins.value].networks, c); }
    x' := Index(joiners, members);
  }

  method BuildSidecarUsageIndex(containers: seq<Container>)
    returns (x: Index)
    ensures Indexes(ById(containers), containers, x)
  {
    var byId: map<Id, Container> := map[];
    for i := 0 to |containers|
      invariant byId == ById(containers[..i])
    {
      assert containers[..i + 1][..i] == containers[..i];
      if containers[i].id != 0 { byId := byId[containers[i].id := containers[i]]; }
    }
    assert containers[..|containers|] == containers;
    x := Index(map[], map[]);
    for i := 0 to |containers|
      invariant Indexes(byId, containers[..i], x)
    {
      ghost var before := x;
      x := IndexOne(byId, containers[i], x);
      IndexesStep(byId, containers[..i], containers[i], before, x);
      assert containers[..i + 1] == containers[..i] + [containers[i]];
    }
  }

  // ---------------------------------------------------------------- the question

  /** `containerMap`. */
  function ByName(cs: seq<Container>): map<Name, Container> {
    if cs == [] then map[] else ByName(cs[..|cs| - 1])[cs[|cs| - 1].name := cs[|cs| - 1]]
  }

  lemma {:induction false} ByNameFinds(cs: seq<Container>)
    ensures forall n | n in ByName(cs) :: ByName(cs)[n] in cs && ByName(cs)[n].name == n
    ensures forall c | c in cs :: c.name in ByName(cs)
  {
    if cs != [] {
      ByNameFinds(cs[..|cs| - 1]);
      assert cs == cs[..|cs| - 1] + [cs[|cs| - 1]];
    }
  }

  predicate Found(byName: map<Name, Container>, m: Name, except: Name) {
    m != except && m in byName && Worker(byName[m])
  }

  method AnyWorker(byName: map<Name, Container>, members: seq<Name>, except: Name)
    returns (found: bool)
    ensures found <==> exists m :: m in members && Found(byName, m, except)
  {
    for i := 0 to |members|
      invariant forall m | m in members[..i] :: !Found(byName, m, except)
    {
      assert members[..i + 1] == members[..i] + [members[i]];
      if Found(byName, members[i], except) {
        assert members[i] in members;
        return true;
      }
    }
    assert members[..|members|] == members;
    found := false;
  }

  /** What one relevant network says. */
  ghost predicate Protects(s: Snapshot, byName: map<Name, Container>, x: Index, c: Container, n: Net) {
    Managed(s, n)
    && (Filled(x.virtualMembers, n)
        || (n in s.networks && exists m :: m in s.networks[n].members && Found(byName, m, c.name)))
  }

  /** `isUnusedNasSidecar`. */
  method IsUnusedNasSidecar(c: Container, s: Snapshot, byName: map<Name, Container>, x: Index)
    returns (unused: bool)
    ensures unused <==> !(c.running && ((c.id != 0 && Filled(x.joinersByOwnerId, c.id))
                                        || exists n :: n in c.networks && Protects(s, byName, x, c, n)))
  {
    if !c.running { return true; }
    if c.id != 0 && c.id in x.joinersByOwnerId && |x.joinersByOwnerId[c.id]| > 0 { return false; }
    for i := 0 to |c.networks|
      invariant forall n | n in c.networks[..i] :: !Protects(s, byName, x, c, n)
    {
      var n := c.networks[i];
      assert c.networks[..i + 1] == c.networks[..i] + [n];
      if Managed(s, n) {
        if n in x.virtualMembers && |x.virtualMembers[n]| > 0 {
          assert Protects(s, byName, x, c, n) && n in c.networks;
          return false;
        }
        if n in s.networks {
          var found := AnyWorker(byName, s.networks[n].members, c.name);
          if found {
            assert Protects(s, byName, x, c, n) && n in c.networks;
            return false;
          }
        }
      }
    }
    assert c.networks[..|c.networks|] == c.networks;
    unused := true;
  }

  // ---------------------------------------------------------------- agreement

  lemma HostedIsIndexed(cs: seq<Container>, x: Index, owner: Id)
    requires Indexes(ById(cs), cs, x)
    ensures Filled(x.joinersByOwnerId, owner) <==> Hosted(cs, owner)
  {
    if c :| c in cs && Credits(c, owner) { assert Joins(cs, c, owner); }
    if c :| Joins(cs, c, owner) { assert c in cs && Credits(c, owner); }
  }

  lemma HostedOnIsIndexed(cs: seq<Container>, x: Index, n: Net)
    requires Indexes(ById(cs), cs, x) && DistinctIds(cs)
    ensures Filled(x.virtualMembers, n) <==> HostedOn(cs, n)
  {
    ByIdFinds(cs);
    if c :| c in cs && CreditsNet(ById(cs), c, n) {
      var o := ById(cs)[c.joins.value];
      assert Joins(cs, c, o.id);
      assert o in cs && o.id != 0 && n in o.networks && Hosted(cs, o.id);
    }
    if o :| o in cs && o.id != 0 && n in o.networks && Hosted(cs, o.id) {
      var c :| Joins(cs, c, o.id);
      assert ById(cs)[o.id] == o;
      assert c in cs && CreditsNet(ById(cs), c, n);
    }
  }

  lemma WorkerIsFound(s: Snapshot, n: Net, except: Name)
    requires DistinctNames(s.containers) && n in s.networks
    ensures (exists m :: m in s.networks[n].members && Found(ByName(s.containers), m, except)) <==>
        HasWorker(s, n, except)
  {
    var byName := ByName(s.containers);
    ByNameFinds(s.containers);
    if m :| m in s.networks[n].members && Found(byName, m, except) {
      var c := byName[m];
      assert c in s.containers && Worker(c) && c.name != except && c.name in s.networks[n].members;
    }
    if c :| c in s.containers && Worker(c) && c.name != except && c.name in s.networks[n].members {
      assert byName[c.name] == c;
      assert c.name in s.networks[n].members && Found(byName, c.name, except);
    }
  }

  lemma ProtectsMeans(s: Snapshot, x: Index, c: Container, n: Net)
    requires DistinctIds(s.containers) && DistinctNames(s.containers) && Indexes(ById(s.containers), s.containers, x)
    ensures Protects(s, ByName(s.containers), x, c, n) <==>
        Managed(s, n) && (HostedOn(s.containers, n) || HasWorker(s, n, c.name))
  {
    HostedOnIsIndexed(s.containers, x, n);
    if n in s.networks { WorkerIsFound(s, n, c.name); }
  }

  /** On the built index the answer is "unused" exactly for a container that is not in use. */
  lemma IndexAgrees(s: Snapshot, x: Index, c: Container)
    requires DistinctIds(s.containers) && DistinctNames(s.containers) && Indexes(ById(s.containers), s.containers, x)
    ensures (c.running && ((c.id != 0 && Filled(x.joinersByOwnerId, c.id))
                           || exists n :: n in c.networks && Protects(s, ByName(s.containers), x, c, n)))
            <==> InUse(s, c)
  {
    HostedIsIndexed(s.containers, x, c.id);
    forall n ensures Protects(s, ByName(s.containers), x, c, n) <==>
        Managed(s, n) && (HostedOn(s.containers, n) || HasWorker(s, n, c.name)) {
      ProtectsMeans(s, x, c, n);
    }
    if n :| n in c.networks && Managed(s, n) && (HostedOn(s.containers, n) || HasWorker(s, n, c.name)) {
      assert Protects(s, ByName(s.containers), x, c, n);
    }
  }

  // ---------------------------------------------------------------- cleaning

  ghost function Unused(s: Snapshot, cs: seq<Container>): seq<Name> {
    if cs == [] then []
    else
      var c := cs[|cs| - 1];
      if c.sidecar && !InUse(s, c) then Unused(s, cs[..|cs| - 1]) + [c.name] else Unused(s, cs[..|cs| - 1])
  }

  /** The decision loop of `cleanNasContainers`: it removes exactly the sidecars that are
      not in use in the snapshot. */
  method CleanSidecars(s: Snapshot)
    returns (removed: seq<Name>)
    requires DistinctIds(s.containers) && DistinctNames(s.containers)
    ensures removed == Unused(s, s.containers)
  {
    var x := BuildSidecarUsageIndex(s.containers);
    var byName := NameMap(s.containers);
    removed := [];
    for i := 0 to |s.containers|
      invariant removed == Unused(s, s.containers[..i])
    {
      var c := s.containers[i];
      assert s.containers[..i + 1][..i] == s.containers[..i];
      if c.sidecar {
        var unused := IsUnusedNasSidecar(c, s, byName, x);
        IndexAgrees(s, x, c);
        if unused { removed := removed + [c.name]; }
      }
    }
    assert s.containers[..|s.containers|] == s.containers;
  }

  method NameMap(cs: seq<Container>)
    returns (byName: map<Name, Container>)
    ensures byName == ByName(cs)
  {
    byName := map[];
    for i := 0 to |cs|
      invariant byName == ByName(cs[..i])
    {
      assert cs[..i + 1][..i] == cs[..i];
      byName := byName[cs[i].name := cs[i]];
    }
    assert cs[..|cs|] == cs;
  }

  lemma {:induction false} UnusedMembers(s: Snapshot, cs: seq<Container>, n: Name)
    ensures n in Unused(s, cs) <==> exists c :: c in cs && c.sidecar && !InUse(s, c) && c.name == n
  {
    if cs != [] {
      var c := cs[|cs| - 1];
      UnusedMembers(s, cs[..|cs| - 1], n);
      assert cs == cs[..|cs| - 1] + [c];
      if c.sidecar && !InUse(s, c) && c.name == n { assert c in cs; }
      if d :| d in cs[..|cs| - 1] && d.sidecar && !InUse(s, d) && d.name == n { assert d in cs; }
    }
  }

  /** The order in which the containers are listed, and so removed, makes no difference. */
  lemma OrderIsIrrelevant(s: Snapshot, t: Snapshot, n: Name)
    requires t == s.(containers := t.containers) && forall c :: c in s.containers <==> c in t.containers
    ensures n in Unused(s, s.containers) <==> n in Unused(t, t.containers)
  {
    UnusedMembers(s, s.containers, n);
    UnusedMembers(t, t.containers, n);
    forall c ensures InUse(s, c) <==> InUse(t, c) {
      if InUse(s, c) { SameUse(s, t, c); }
      if InUse(t, c) { SameUse(t, s, c); }
    }
    if c :| c in s.containers && c.sidecar && !InUse(s, c) && c.name == n { assert c in t.containers; }
    if c :| c in t.containers && c.sidecar && !InUse(t, c) && c.name == n { assert c in s.containers; }
  }

  lemma SameUse(s: Snapshot, t: Snapshot, c: Container)
    requires s.networks == t.networks && s.managedByName == t.managedByName && forall d :: d in s.containers <==>
        d in t.containers
    requires InUse(s, c)
    ensures InUse(t, c)
  {
    if c.id != 0 && Hosted(s.containers, c.id) {
      var d :| Joins(s.containers, d, c.id);
      assert Joins(t.containers, d, c.id);
    } else {
      var n :| n in c.networks && Managed(s, n) && (HostedOn(s.containers, n) || HasWorker(s, n, c.name));
      if HostedOn(s.containers, n) {
        var o :| o in s.containers && o.id != 0 && n in o.networks && Hosted(s.containers, o.id);
        var d :| Joins(s.containers, d, o.id);
        assert Joins(t.containers, d, o.id);
        assert o in t.containers && Hosted(t.containers, o.id);
      } else {
        var d :| d in s.containers && Worker(d) && d.name != c.name && d.name in s.networks[n].members;
        assert d in t.containers;
      }
      assert n in c.networks && Managed(t, n) && (HostedOn(t.containers, n) || HasWorker(t, n, c.name));
    }
  }
}
