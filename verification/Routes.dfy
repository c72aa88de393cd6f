/**
 From domain rows and port bindings to route groups: expandDomainRoutes and groupRoutes.
 */
module Routes {
  import opened Options
  import opened Text

  datatype DomainRow = DomainRow(
    id: string,
    fqdn: string,
    webRoute: bool,
    targetService: Option<string>,
    targetPort: Option<nat>,
    isPrimary: bool)

  datatype BindingRow = BindingRow(
    domainId: string,
    hostPort: nat,
    targetService: Option<string>,
    targetPort: Option<nat>)

  datatype Route = Route(
    fqdn: string,
    targetService: Option<string>,
    targetPort: Option<nat>,
    hostPort: Option<nat>,
    isPrimary: bool)

  datatype Defaults = Defaults(service: Option<string>, port: nat)

  /** What a route resolves to, and what its group is known by. */
  datatype RouteKey = RouteKey(service: Option<string>, port: nat, hostPort: Option<nat>)

  datatype RouteGroup = RouteGroup(key: RouteKey, hosts: seq<string>)

  // ---------- Expansion ----------

  function WebRouteOf(d: DomainRow): Route {
    Route(d.fqdn, d.targetService, d.targetPort, None, d.isPrimary)
  }

  function BoundRoute(d: DomainRow, b: BindingRow): Route {
    Route(d.fqdn, b.targetService, b.targetPort, Some(b.hostPort), d.isPrimary)
  }

  function BindingsOf(bindings: seq<BindingRow>, id: string): seq<BindingRow> {
    if bindings == [] then []
    else
      var n := |bindings| - 1;
      BindingsOf(bindings[..n], id) + if bindings[n].domainId == id then [bindings[n]] else []
  }

  function BoundRoutes(d: DomainRow, bindings: seq<BindingRow>): (r: seq<Route>)
    ensures |r| == |bindings|
  {
    seq(|bindings|, i requires 0 <= i < |bindings| => BoundRoute(d, bindings[i]))
  }

  function RoutesOf(d: DomainRow, bindings: seq<BindingRow>): seq<Route> {
    (if d.webRoute then [WebRouteOf(d)] else []) + BoundRoutes(d, BindingsOf(bindings, d.id))
  }

  function Flat(domains: seq<DomainRow>, bindings: seq<BindingRow>): seq<Route> {
    if domains == [] then []
    else Flat(domains[..|domains| - 1], bindings) + RoutesOf(domains[|domains| - 1], bindings)
  }

  function WithPrimary(routes: seq<Route>, primary: bool): seq<Route> {
    if routes == [] then []
    else
      var n := |routes| - 1;
      WithPrimary(routes[..n], primary) + if routes[n].isPrimary == primary then [routes[n]] else []
  }

  /** A stable sort by `isPrimary`, descending. */
  function PrimaryFirst(routes: seq<Route>): seq<Route> {
    WithPrimary(routes, true) + WithPrimary(routes, false)
  }

  function Expanded(domains: seq<DomainRow>, bindings: seq<BindingRow>): seq<Route> {
    PrimaryFirst(Flat(domains, bindings))
  }

  function Listed(byDomain: map<string, seq<BindingRow>>, id: string): seq<BindingRow> {
    if id in byDomain then byDomain[id] else []
  }

  method CollectBindings(bindings: seq<BindingRow>) returns (byDomain: map<string, seq<BindingRow>>)
    ensures forall id :: Listed(byDomain, id) == BindingsOf(bindings, id)
  {
    byDomain := map[];
    for i := 0 to |bindings|
      invariant forall id :: Listed(byDomain, id) == BindingsOf(bindings[..i], id)
    {
      var b := bindings[i];
      assert bindings[..i + 1][..i] == bindings[..i];
      byDomain := byDomain[b.domainId := Listed(byDomain, b.domainId) + [b]];
    }
    assert bindings[..|bindings|] == bindings;
  }

  method PushBound(routes: seq<Route>, d: DomainRow, list: seq<BindingRow>) returns (r: seq<Route>)
    ensures r == routes + BoundRoutes(d, list)
  {
    r := routes;
    for j := 0 to |list|
      invariant r == routes + BoundRoutes(d, list)[..j]
    {
      r := r + [BoundRoute(d, list[j])];
    }
  }

  method ExpandDomainRoutes(domains: seq<DomainRow>, bindings: seq<BindingRow>) returns (routes: seq<Route>)
    ensures routes == Expanded(domains, bindings)
  {
    var byDomain := CollectBindings(bindings);
    routes := [];
    for i := 0 to |domains|
      invariant routes == Flat(domains[..i], bindings)
    {
      var d := domains[i];
      assert domains[..i + 1][..i] == domains[..i];
      var web := if d.webRoute then [WebRouteOf(d)] else [];
      var pushed := PushBound(routes + web, d, Listed(byDomain, d.id));
      Associate(routes, web, BoundRoutes(d, BindingsOf(bindings, d.id)));
      routes := pushed;
    }
    assert domains[..|domains|] == domains;
    routes := PrimaryFirst(routes);
  }

  // ---------- Grouping ----------

  function Or<T>(value: Option<T>, default: T): T {
    if value.Some? then value.value else default
  }

  function Resolve(t: Route, d: Defaults): RouteKey {
    RouteKey(if d.service.None? then None else Some(Or(t.targetService, d.service.value)),
             Or(t.targetPort, d.port), t.hostPort)
  }

  /** The string that groupRoutes keys its map with. */
  function KeyString(k: RouteKey): string {
    Or(k.service, "") + ":" + Decimal(k.port) + ":" + HostPortString(k)
  }

  function HostPortString(k: RouteKey): string {
    if k.hostPort.Some? then Decimal(k.hostPort.value) else ""
  }

  /** The string determines the key, even when a service name contains ':', but for one thing: it reads
      a missing service as an empty one. */
  lemma KeyStringExact(a: RouteKey, b: RouteKey)
    ensures KeyString(a) == KeyString(b) <==>
            Or(a.service, "") == Or(b.service, "") && a.port == b.port && a.hostPort == b.hostPort
  {
    if KeyString(a) == KeyString(b) {
      LastSeparator(Or(a.service, "") + ":" + Decimal(a.port), HostPortString(a),
                    Or(b.service, "") + ":" + Decimal(b.port), HostPortString(b), ':');
      LastSeparator(Or(a.service, ""), Decimal(a.port), Or(b.service, ""), Decimal(b.port), ':');
      DecimalInjective(a.port, b.port);
      if a.hostPort.Some? && b.hostPort.Some? {
        DecimalInjective(a.hostPort.value, b.hostPort.value);
      }
    }
  }

  /** One more host for the group of `k`, which is made at the end when it is new. */
  function Added(groups: seq<RouteGroup>, host: string, k: RouteKey): seq<RouteGroup> {
    if groups == [] then [RouteGroup(k, [host])]
    else if groups[0].key == k then [groups[0].(hosts := groups[0].hosts + [host])] + groups[1..]
    else [groups[0]] + Added(groups[1..], host, k)
  }

  function Grouped(targets: seq<Route>, d: Defaults): seq<RouteGroup> {
    if targets == [] then []
    else
      var n := |targets| - 1;
      Added(Grouped(targets[..n], d), targets[n].fqdn, Resolve(targets[n], d))
  }

  lemma {:induction false} AddedAt(groups: seq<RouteGroup>, host: string, k: RouteKey, at: nat)
    requires at < |groups| && groups[at].key == k && forall i :: 0 <= i < at ==> groups[i].key != k
    ensures Added(groups, host, k) == groups[at := groups[at].(hosts := groups[at].hosts + [host])]
  {
    if at > 0 {
      AddedAt(groups[1..], host, k, at - 1);
    }
  }

  lemma {:induction false} AddedNew(groups: seq<RouteGroup>, host: string, k: RouteKey)
    requires forall i :: 0 <= i < |groups| ==> groups[i].key != k
    ensures Added(groups, host, k) == groups + [RouteGroup(k, [host])]
  {
    if groups != [] {
      AddedNew(groups[1..], host, k);
    }
  }

  /** The map of groupRoutes: each key string leads to the one group it stands for. */
  ghost predicate Indexes(index: map<string, nat>, groups: seq<RouteGroup>) {
    && (forall i :: 0 <= i < |groups| ==> KeyString(groups[i].key) in index && index[KeyString(groups[i].key)] == i)
    && (forall s <- index :: index[s] < |groups| && KeyString(groups[index[s]].key) == s)
  }

  ghost predicate SameKind(groups: seq<RouteGroup>, d: Defaults) {
    forall i :: 0 <= i < |groups| ==> groups[i].key.service.None? == d.service.None?
  }

  method AddTarget(groups: seq<RouteGroup>, index: map<string, nat>, t: Route, d: Defaults)
    returns (groups': seq<RouteGroup>, index': map<string, nat>)
    requires Indexes(index, groups) && SameKind(groups, d)
    ensures Indexes(index', groups') && SameKind(groups', d)
    ensures groups' == Added(groups, t.fqdn, Resolve(t, d))
  {
    var k := Resolve(t, d);
    if KeyString(k) in index {
      var at := index[KeyString(k)];
      KeyStringExact(k, groups[at].key);
      AddedAt(groups, t.fqdn, k, at);
      groups', index' := groups[at := groups[at].(hosts := groups[at].hosts + [t.fqdn])], index;
    } else {
      AddedNew(groups, t.fqdn, k);
      groups', index' := groups + [RouteGroup(k, [t.fqdn])], index[KeyString(k) := |groups|];
    }
  }

  method GroupRoutes(targets: seq<Route>, d: Defaults) returns (groups: seq<RouteGroup>)
    ensures groups == Grouped(targets, d)
  {
    groups := [];
    var index: map<string, nat> := map[];
    for n := 0 to |targets|
      invariant groups == Grouped(targets[..n], d)
      invariant Indexes(index, groups) && SameKind(groups, d)
    {
      assert targets[..n + 1][..n] == targets[..n];
      groups, index := AddTarget(groups, index, targets[n], d);
    }
    assert targets[..|targets|] == targets;
  }

  // ---------- What the rows ask for ----------

  /** What a row asks for, field by field: its own port or the default one; and no service at all in a deployment without
      services, otherwise its own or the default one. */
  ghost function AskedKey(service: Option<string>, port: Option<nat>, hostPort: Option<nat>, d: Defaults): RouteKey {
    RouteKey(match d.service
             case None => None
             case Some(default) => (match service case Some(own) => Some(own) case None => Some(default)),
             match port case Some(own) => own case None => d.port,
             hostPort)
  }

  ghost function WebKey(row: DomainRow, d: Defaults): RouteKey {
    AskedKey(row.targetService, row.targetPort, None, d)
  }

  ghost function BindingKey(b: BindingRow, d: Defaults): RouteKey {
    AskedKey(b.targetService, b.targetPort, Some(b.hostPort), d)
  }

  lemma ResolveIsAsked(t: Route, d: Defaults)
    ensures Resolve(t, d) == AskedKey(t.targetService, t.targetPort, t.hostPort, d)
  {
  }

  lemma RoutesAskAsRows(row: DomainRow, b: BindingRow, d: Defaults)
    ensures Resolve(WebRouteOf(row), d) == WebKey(row, d) && Resolve(BoundRoute(row, b), d) == BindingKey(b, d)
    ensures WebRouteOf(row).fqdn == row.fqdn && BoundRoute(row, b).fqdn == row.fqdn
  {
    ResolveIsAsked(WebRouteOf(row), d);
    ResolveIsAsked(BoundRoute(row, b), d);
  }

  // ---------- What grouping means ----------

  /** The hosts of the targets that resolve to `k`, in order. */
  function HostsFor(targets: seq<Route>, d: Defaults, k: RouteKey): seq<string> {
    if targets == [] then []
    else
      var n := |targets| - 1;
      HostsFor(targets[..n], d, k) + if Resolve(targets[n], d) == k then [targets[n].fqdn] else []
  }

  ghost predicate DistinctKeys(groups: seq<RouteGroup>) {
    forall i, j :: 0 <= i < j < |groups| ==> groups[i].key != groups[j].key
  }

  function HostsIn(groups: seq<RouteGroup>, k: RouteKey): seq<string> {
    if groups == [] then []
    else if groups[0].key == k then groups[0].hosts
    else HostsIn(groups[1..], k)
  }

  ghost predicate AllHaveHosts(groups: seq<RouteGroup>) {
    forall i :: 0 <= i < |groups| ==> groups[i].hosts != []
  }

  ghost predicate HasKey(groups: seq<RouteGroup>, k: RouteKey) {
    exists i :: 0 <= i < |groups| && groups[i].key == k
  }

  lemma {:induction false} AddedKeys(groups: seq<RouteGroup>, host: string, k: RouteKey, q: RouteKey)
    requires q != k
    ensures HasKey(Added(groups, host, k), q) <==> HasKey(groups, q)
  {
    if groups != [] {
      var r := Added(groups, host, k);
      if groups[0].key != k {
        AddedKeys(groups[1..], host, k, q);
        assert r[1..] == Added(groups[1..], host, k);
      } else {
        assert r[1..] == groups[1..];
      }
      KeyInRest(groups, q);
      KeyInRest(r, q);
    }
  }

  lemma KeyInRest(groups: seq<RouteGroup>, q: RouteKey)
    requires groups != []
    ensures HasKey(groups, q) <==> groups[0].key == q || HasKey(groups[1..], q)
  {
    if i :| 0 <= i < |groups| && groups[i].key == q {
      assert i > 0 ==> groups[1..][i - 1].key == q;
    }
    if i :| 0 <= i < |groups[1..]| && groups[1..][i].key == q {
      assert groups[i + 1].key == q;
    }
  }

  lemma {:induction false} AddedDistinct(groups: seq<RouteGroup>, host: string, k: RouteKey)
    requires DistinctKeys(groups)
    ensures DistinctKeys(Added(groups, host, k))
  {
    var r := Added(groups, host, k);
    if groups != [] {
      if groups[0].key != k {
        AddedDistinct(groups[1..], host, k);
        AddedKeys(groups[1..], host, k, groups[0].key);
        assert r[1..] == Added(groups[1..], host, k);
      } else {
        assert r[1..] == groups[1..];
      }
      assert !HasKey(groups[1..], groups[0].key);
      DistinctWithFirst(r);
    }
  }

  lemma DistinctWithFirst(groups: seq<RouteGroup>)
    requires groups != [] && DistinctKeys(groups[1..]) && !HasKey(groups[1..], groups[0].key)
    ensures DistinctKeys(groups)
  {
    forall i, j | 0 <= i < j < |groups| ensures groups[i].key != groups[j].key {
      assert groups[1..][j - 1].key == groups[j].key;
      assert i > 0 ==> groups[1..][i - 1].key == groups[i].key;
    }
  }

  lemma {:induction false} AddedHaveHosts(groups: seq<RouteGroup>, host: string, k: RouteKey)
    requires AllHaveHosts(groups)
    ensures AllHaveHosts(Added(groups, host, k))
  {
    if groups != [] && groups[0].key != k { AddedHaveHosts(groups[1..], host, k); }
  }

  lemma {:induction false} AddedHosts(groups: seq<RouteGroup>, host: string, k: RouteKey, q: RouteKey)
    requires DistinctKeys(groups)
    ensures HostsIn(Added(groups, host, k), q) == HostsIn(groups, q) + if q == k then [host] else []
  {
    var r := Added(groups, host, k);
    if groups != [] && groups[0].key != k {
      AddedHosts(groups[1..], host, k, q);
      assert r[1..] == Added(groups[1..], host, k);
    } else if groups != [] {
      assert r[1..] == groups[1..];
      NoHosts(groups[1..], k);
    }
  }

  /** One host more for one key, and nothing else. */
  lemma AddedMeaning(groups: seq<RouteGroup>, host: string, k: RouteKey)
    requires DistinctKeys(groups) && AllHaveHosts(groups)
    ensures var r := Added(groups, host, k);
            && DistinctKeys(r) && AllHaveHosts(r)
            && forall q :: HostsIn(r, q) == HostsIn(groups, q) + if q == k then [host] else []
  {
    AddedDistinct(groups, host, k);
    AddedHaveHosts(groups, host, k);
    forall q ensures HostsIn(Added(groups, host, k), q) == HostsIn(groups, q) + if q == k then [host] else [] {
      AddedHosts(groups, host, k, q);
    }
  }

  lemma {:induction false} NoHosts(groups: seq<RouteGroup>, k: RouteKey)
    requires forall i :: 0 <= i < |groups| ==> groups[i].key != k
    ensures HostsIn(groups, k) == []
  {
    if groups != [] { NoHosts(groups[1..], k); }
  }

  lemma {:induction false} HostsInAt(groups: seq<RouteGroup>, i: nat)
    requires DistinctKeys(groups) && i < |groups|
    ensures HostsIn(groups, groups[i].key) == groups[i].hosts
  {
    if i > 0 { HostsInAt(groups[1..], i - 1); }
  }

  /** No two groups share (service, port, host port); each has exactly the hosts that resolve to it, in
      order and at least one; a key without a group has no hosts. */
  lemma {:induction false} GroupsByKey(targets: seq<Route>, d: Defaults)
    ensures var groups := Grouped(targets, d);
            && DistinctKeys(groups)
            && (forall i :: 0 <= i < |groups| ==> groups[i].hosts != [])
            && (forall k :: HostsIn(groups, k) == HostsFor(targets, d, k))
  {
    if targets != [] {
      var n := |targets| - 1;
      GroupsByKey(targets[..n], d);
      AddedMeaning(Grouped(targets[..n], d), targets[n].fqdn, Resolve(targets[n], d));
    }
  }

  lemma GroupHosts(targets: seq<Route>, d: Defaults, i: nat)
    requires i < |Grouped(targets, d)|
    ensures Grouped(targets, d)[i].hosts == HostsFor(targets, d, Grouped(targets, d)[i].key) != []
  {
    GroupsByKey(targets, d);
    HostsInAt(Grouped(targets, d), i);
  }

  // ---------- Conservation ----------

  type Served = multiset<(string, RouteKey)>

  ghost function HostPairs(hosts: seq<string>, k: RouteKey): Served {
    if hosts == [] then multiset{} else HostPairs(hosts[..|hosts| - 1], k) + multiset{(hosts[|hosts| - 1], k)}
  }

  /** Everything the groups serve, with multiplicity. */
  ghost function Pairs(groups: seq<RouteGroup>): Served {
    if groups == [] then multiset{} else HostPairs(groups[0].hosts, groups[0].key) + Pairs(groups[1..])
  }

  lemma HostPairsAdd(hosts: seq<string>, host: string, k: RouteKey)
    ensures HostPairs(hosts + [host], k) == HostPairs(hosts, k) + multiset{(host, k)}
  {
    assert (hosts + [host])[..|hosts|] == hosts;
  }

  lemma {:induction false} AddedPairs(groups: seq<RouteGroup>, host: string, k: RouteKey)
    ensures Pairs(Added(groups, host, k)) == Pairs(groups) + multiset{(host, k)}
  {
    var r := Added(groups, host, k);
    if groups == [] {
      HostPairsAdd([], host, k);
      assert [] + [host] == [host];
    } else if groups[0].key == k {
      HostPairsAdd(groups[0].hosts, host, k);
      assert r[1..] == groups[1..];
    } else {
      assert r[1..] == Added(groups[1..], host, k);
      AddedPairs(groups[1..], host, k);
    }
  }

  ghost function ResolvedPairs(targets: seq<Route>, d: Defaults): Served {
    if targets == [] then multiset{}
    else
      var n := |targets| - 1;
      ResolvedPairs(targets[..n], d) + multiset{(targets[n].fqdn, Resolve(targets[n], d))}
  }

  lemma {:induction false} GroupingConserves(targets: seq<Route>, d: Defaults)
    ensures Pairs(Grouped(targets, d)) == ResolvedPairs(targets, d)
  {
    if targets != [] {
      var n := |targets| - 1;
      GroupingConserves(targets[..n], d);
      AddedPairs(Grouped(targets[..n], d), targets[n].fqdn, Resolve(targets[n], d));
    }
  }

  lemma {:induction false} ResolvedPairsOfConcat(a: seq<Route>, b: seq<Route>, d: Defaults)
    ensures ResolvedPairs(a + b, d) == ResolvedPairs(a, d) + ResolvedPairs(b, d)
  {
    if b == [] {
      assert a + b == a;
    } else {
      var n := |b| - 1;
      assert (a + b)[..|a| + n] == a + b[..n];
      ResolvedPairsOfConcat(a, b[..n], d);
    }
  }

  lemma ResolvedPairsAdd(routes: seq<Route>, t: Route, d: Defaults)
    ensures ResolvedPairs(routes + [t], d) == ResolvedPairs(routes, d) + multiset{(t.fqdn, Resolve(t, d))}
  {
    assert (routes + [t])[..|routes|] == routes;
  }

  lemma Regroup(a: Served, b: Served, x: Served, y: Served)
    ensures (a + x) + (b + y) == (a + b) + (x + y)
  {
  }

  lemma {:induction false} PartsConserve(routes: seq<Route>, d: Defaults)
    ensures ResolvedPairs(WithPrimary(routes, true), d) + ResolvedPairs(WithPrimary(routes, false), d)
         == ResolvedPairs(routes, d)
  {
    if routes != [] {
      var n := |routes| - 1;
      var t := routes[n];
      var x := multiset{(t.fqdn, Resolve(t, d))};
      var same, other := WithPrimary(routes[..n], t.isPrimary), WithPrimary(routes[..n], !t.isPrimary);
      PartsConserve(routes[..n], d);
      ResolvedPairsAdd(same, t, d);
      assert WithPrimary(routes, t.isPrimary) == same + [t] && WithPrimary(routes, !t.isPrimary) == other;
      Regroup(ResolvedPairs(same, d), ResolvedPairs(other, d), x, multiset{});
    }
  }

  lemma SortConserves(routes: seq<Route>, d: Defaults)
    ensures ResolvedPairs(PrimaryFirst(routes), d) == ResolvedPairs(routes, d)
  {
    PartsConserve(routes, d);
    ResolvedPairsOfConcat(WithPrimary(routes, true), WithPrimary(routes, false), d);
  }

  ghost predicate DistinctIds(domains: seq<DomainRow>) {
    forall i, j :: 0 <= i < j < |domains| ==> domains[i].id != domains[j].id
  }

  /** What the web-serving domains ask for. */
  ghost function WebPairs(domains: seq<DomainRow>, d: Defaults): Served {
    if domains == [] then multiset{}
    else
      var n := |domains| - 1;
      WebPairs(domains[..n], d) + WebPair(domains[n], d)
  }

  function DomainOf(domains: seq<DomainRow>, id: string): Option<DomainRow> {
    if domains == [] then None
    else if domains[|domains| - 1].id == id then Some(domains[|domains| - 1])
    else DomainOf(domains[..|domains| - 1], id)
  }

  /** What one binding asks for: nothing when its domain is not listed. */
  ghost function BindingPair(domains: seq<DomainRow>, b: BindingRow, d: Defaults): Served {
    match DomainOf(domains, b.domainId)
    case None => multiset{}
    case Some(row) => multiset{(row.fqdn, BindingKey(b, d))}
  }

  ghost function BindingPairs(domains: seq<DomainRow>, bindings: seq<BindingRow>, d: Defaults): Served {
    if bindings == [] then multiset{}
    else
      var n := |bindings| - 1;
      BindingPairs(domains, bindings[..n], d) + BindingPair(domains, bindings[n], d)
  }

  lemma {:induction false} NotListed(domains: seq<DomainRow>, id: string)
    requires forall i :: 0 <= i < |domains| ==> domains[i].id != id
    ensures DomainOf(domains, id) == None
  {
    if domains != [] { NotListed(domains[..|domains| - 1], id); }
  }

  /** One more domain adds the routes of its own bindings. */
  lemma {:induction false} DomainAddsItsBindings(domains: seq<DomainRow>, bindings: seq<BindingRow>, d: Defaults)
    requires domains != [] && DistinctIds(domains)
    ensures var n := |domains| - 1;
            BindingPairs(domains, bindings, d) ==
            BindingPairs(domains[..n], bindings, d)
            + ResolvedPairs(BoundRoutes(domains[n], BindingsOf(bindings, domains[n].id)), d)
  {
    var n := |domains| - 1;
    if bindings != [] {
      var m := |bindings| - 1;
      var b := bindings[m];
      var own := BoundRoutes(domains[n], BindingsOf(bindings[..m], domains[n].id));
      DomainAddsItsBindings(domains, bindings[..m], d);
      OwnBindingAdds(domains, bindings, d);
      Regroup(BindingPairs(domains[..n], bindings[..m], d), ResolvedPairs(own, d),
              BindingPair(domains[..n], b, d), OwnPair(domains[n], b, d));
    }
  }

  ghost function OwnPair(row: DomainRow, b: BindingRow, d: Defaults): Served {
    if b.domainId == row.id then multiset{(row.fqdn, BindingKey(b, d))} else multiset{}
  }

  lemma OwnBindingAdds(domains: seq<DomainRow>, bindings: seq<BindingRow>, d: Defaults)
    requires domains != [] && bindings != [] && DistinctIds(domains)
    ensures var n, m := |domains| - 1, |bindings| - 1;
            && BindingPair(domains, bindings[m], d)
               == BindingPair(domains[..n], bindings[m], d) + OwnPair(domains[n], bindings[m], d)
            && ResolvedPairs(BoundRoutes(domains[n], BindingsOf(bindings, domains[n].id)), d)
               == ResolvedPairs(BoundRoutes(domains[n], BindingsOf(bindings[..m], domains[n].id)), d)
                  + OwnPair(domains[n], bindings[m], d)
  {
    var n, m := |domains| - 1, |bindings| - 1;
    var row, b, own := domains[n], bindings[m], BindingsOf(bindings[..m], domains[n].id);
    if b.domainId == row.id {
      NotListed(domains[..n], b.domainId);
      assert BoundRoutes(row, own + [b]) == BoundRoutes(row, own) + [BoundRoute(row, b)];
      ResolvedPairsAdd(BoundRoutes(row, own), BoundRoute(row, b), d);
      RoutesAskAsRows(row, b, d);
    } else {
      assert BindingsOf(bindings, row.id) == own;
    }
  }

  ghost function WebPair(row: DomainRow, d: Defaults): Served {
    if row.webRoute then multiset{(row.fqdn, WebKey(row, d))} else multiset{}
  }

  lemma RoutesOfPairs(row: DomainRow, bindings: seq<BindingRow>, d: Defaults)
    ensures ResolvedPairs(RoutesOf(row, bindings), d)
         == WebPair(row, d) + ResolvedPairs(BoundRoutes(row, BindingsOf(bindings, row.id)), d)
  {
    var web: seq<Route> := if row.webRoute then [WebRouteOf(row)] else [];
    ResolvedPairsOfConcat(web, BoundRoutes(row, BindingsOf(bindings, row.id)), d);
    ResolvedPairsAdd([], WebRouteOf(row), d);
    ResolveIsAsked(WebRouteOf(row), d);
    assert [] + [WebRouteOf(row)] == [WebRouteOf(row)];
  }

  lemma {:induction false} FlatConserves(domains: seq<DomainRow>, bindings: seq<BindingRow>, d: Defaults)
    requires DistinctIds(domains)
    ensures ResolvedPairs(Flat(domains, bindings), d) == WebPairs(domains, d) + BindingPairs(domains, bindings, d)
  {
    if domains == [] {
      NothingBound(bindings, d);
    } else {
      var n := |domains| - 1;
      FlatConserves(domains[..n], bindings, d);
      DomainAddsItsBindings(domains, bindings, d);
      RoutesOfPairs(domains[n], bindings, d);
      ResolvedPairsOfConcat(Flat(domains[..n], bindings), RoutesOf(domains[n], bindings), d);
      Regroup(WebPairs(domains[..n], d), BindingPairs(domains[..n], bindings, d), WebPair(domains[n], d),
              ResolvedPairs(BoundRoutes(domains[n], BindingsOf(bindings, domains[n].id)), d));
    }
  }

  lemma {:induction false} NothingBound(bindings: seq<BindingRow>, d: Defaults)
    ensures BindingPairs([], bindings, d) == multiset{}
  {
    if bindings != [] { NothingBound(bindings[..|bindings| - 1], d); }
  }

  /** From rows to groups nothing is lost, doubled or added: the groups serve exactly one
      (host, service, port, host port) for each web-serving domain and for each binding of a listed domain. */
  lemma CompilationConserves(domains: seq<DomainRow>, bindings: seq<BindingRow>, d: Defaults)
    requires DistinctIds(domains)
    ensures Pairs(Grouped(Expanded(domains, bindings), d)) == WebPairs(domains, d) + BindingPairs(domains, bindings, d)
  {
    GroupingConserves(Expanded(domains, bindings), d);
    SortConserves(Flat(domains, bindings), d);
    FlatConserves(domains, bindings, d);
  }

  lemma {:induction false} HostsOfConcat(a: seq<Route>, b: seq<Route>, d: Defaults, k: RouteKey)
    ensures HostsFor(a + b, d, k) == HostsFor(a, d, k) + HostsFor(b, d, k)
  {
    if b == [] {
      assert a + b == a;
    } else {
      var n := |b| - 1;
      assert (a + b)[..|a| + n] == a + b[..n];
      HostsOfConcat(a, b[..n], d, k);
    }
  }

  lemma {:induction false} WithPrimaryOfConcat(a: seq<Route>, b: seq<Route>, primary: bool)
    ensures WithPrimary(a + b, primary) == WithPrimary(a, primary) + WithPrimary(b, primary)
  {
    if b == [] {
      assert a + b == a;
    } else {
      var n := |b| - 1;
      assert (a + b)[..|a| + n] == a + b[..n];
      WithPrimaryOfConcat(a, b[..n], primary);
    }
  }

  lemma {:induction false} AllOrNone(routes: seq<Route>, primary: bool, all: bool)
    requires forall r <- routes :: r.isPrimary == all
    ensures WithPrimary(routes, primary) == if primary == all then routes else []
  {
    if routes != [] {
      var n := |routes| - 1;
      AllOrNone(routes[..n], primary, all);
      assert routes[n] in routes && routes == routes[..n] + [routes[n]];
    }
  }

  /** The hosts for which the bindings of a domain ask for this key, in order. */
  ghost function HostsOfBindings(row: DomainRow, bindings: seq<BindingRow>, d: Defaults, k: RouteKey): seq<string> {
    if bindings == [] then []
    else
      var n := |bindings| - 1;
      HostsOfBindings(row, bindings[..n], d, k)
      + if bindings[n].domainId == row.id && BindingKey(bindings[n], d) == k then [row.fqdn] else []
  }

  /** A domain asks for its web route first, then for its bindings. */
  ghost function HostsOfDomain(row: DomainRow, bindings: seq<BindingRow>, d: Defaults, k: RouteKey): seq<string> {
    (if row.webRoute && WebKey(row, d) == k then [row.fqdn] else []) + HostsOfBindings(row, bindings, d, k)
  }

  ghost function HostsAsked(domains: seq<DomainRow>, bindings: seq<BindingRow>, d: Defaults, k: RouteKey,
                            primary: bool): seq<string> {
    if domains == [] then []
    else
      var n := |domains| - 1;
      HostsAsked(domains[..n], bindings, d, k, primary)
      + if domains[n].isPrimary == primary then HostsOfDomain(domains[n], bindings, d, k) else []
  }

  lemma {:induction false} BoundHosts(row: DomainRow, bindings: seq<BindingRow>, d: Defaults, k: RouteKey)
    ensures HostsFor(BoundRoutes(row, BindingsOf(bindings, row.id)), d, k) == HostsOfBindings(row, bindings, d, k)
  {
    if bindings != [] {
      var n := |bindings| - 1;
      var own, b := BindingsOf(bindings[..n], row.id), bindings[n];
      BoundHosts(row, bindings[..n], d, k);
      if b.domainId == row.id {
        RoutesAskAsRows(row, b, d);
        var routes := BoundRoutes(row, own + [b]);
        assert routes[..|own|] == BoundRoutes(row, own) && routes[|own|] == BoundRoute(row, b);
      } else {
        assert BindingsOf(bindings, row.id) == own;
      }
    }
  }

  lemma RoutesHosts(row: DomainRow, bindings: seq<BindingRow>, d: Defaults, k: RouteKey)
    ensures HostsFor(RoutesOf(row, bindings), d, k) == HostsOfDomain(row, bindings, d, k)
  {
    var web: seq<Route> := if row.webRoute then [WebRouteOf(row)] else [];
    HostsOfConcat(web, BoundRoutes(row, BindingsOf(bindings, row.id)), d, k);
    BoundHosts(row, bindings, d, k);
    ResolveIsAsked(WebRouteOf(row), d);
    if row.webRoute { assert web[..0] == []; }
  }

  lemma {:induction false} FlatHosts(domains: seq<DomainRow>, bindings: seq<BindingRow>, d: Defaults, k: RouteKey,
                                     primary: bool)
    ensures HostsFor(WithPrimary(Flat(domains, bindings), primary), d, k)
         == HostsAsked(domains, bindings, d, k, primary)
  {
    if domains != [] {
      var n := |domains| - 1;
      var before, own := Flat(domains[..n], bindings), RoutesOf(domains[n], bindings);
      FlatHosts(domains[..n], bindings, d, k, primary);
      WithPrimaryOfConcat(before, own, primary);
      AllOrNone(own, primary, domains[n].isPrimary);
      HostsOfConcat(WithPrimary(before, primary), WithPrimary(own, primary), d, k);
      RoutesHosts(domains[n], bindings, d, k);
    }
  }

  /** From the rows: no two groups share a key; and for every key its group has exactly the hosts that ask for it, those
      of primary domains first, and otherwise in the order of the domains and their bindings. A key without a group has
      none. */
  lemma PrimaryHostsFirst(domains: seq<DomainRow>, bindings: seq<BindingRow>, d: Defaults, k: RouteKey)
    ensures var groups := Grouped(Expanded(domains, bindings), d);
            && DistinctKeys(groups) && AllHaveHosts(groups)
            && HostsIn(groups, k) == HostsAsked(domains, bindings, d, k, true)
                                     + HostsAsked(domains, bindings, d, k, false)
  {
    var flat := Flat(domains, bindings);
    GroupsByKey(Expanded(domains, bindings), d);
    HostsOfConcat(WithPrimary(flat, true), WithPrimary(flat, false), d, k);
    FlatHosts(domains, bindings, d, k, true);
    FlatHosts(domains, bindings, d, k, false);
  }

  lemma GroupHostsAsked(domains: seq<DomainRow>, bindings: seq<BindingRow>, d: Defaults, i: nat)
    requires i < |Grouped(Expanded(domains, bindings), d)|
    ensures var g := Grouped(Expanded(domains, bindings), d)[i];
            g.hosts == HostsAsked(domains, bindings, d, g.key, true) + HostsAsked(domains, bindings, d, g.key, false)
  {
    var groups := Grouped(Expanded(domains, bindings), d);
    PrimaryHostsFirst(domains, bindings, d, groups[i].key);
    HostsInAt(groups, i);
  }

  // ---------- The order of the groups ----------

  function KeysOf(groups: seq<RouteGroup>): seq<RouteKey> {
    seq(|groups|, i requires 0 <= i < |groups| => groups[i].key)
  }

  ghost function KeysAsked(targets: seq<Route>, d: Defaults): seq<RouteKey> {
    seq(|targets|, i requires 0 <= i < |targets| =>
      AskedKey(targets[i].targetService, targets[i].targetPort, targets[i].hostPort, d))
  }

  /** Each key once, where it comes first. */
  function FirstSeen(keys: seq<RouteKey>): seq<RouteKey> {
    if keys == [] then []
    else
      var n := |keys| - 1;
      var before := FirstSeen(keys[..n]);
      if keys[n] in before then before else before + [keys[n]]
  }

  lemma {:induction false} AddedKeySeq(groups: seq<RouteGroup>, host: string, k: RouteKey)
    ensures KeysOf(Added(groups, host, k)) == if k in KeysOf(groups) then KeysOf(groups) else KeysOf(groups) + [k]
  {
    if groups != [] {
      var r := Added(groups, host, k);
      assert KeysOf(groups) == [groups[0].key] + KeysOf(groups[1..]);
      assert KeysOf(r) == [r[0].key] + KeysOf(r[1..]);
      if groups[0].key == k {
        assert r[1..] == groups[1..];
      } else {
        assert r[1..] == Added(groups[1..], host, k);
        AddedKeySeq(groups[1..], host, k);
      }
    }
  }

  /** The groups come in the order in which their keys are first asked for. */
  lemma {:induction false} GroupsInOrder(targets: seq<Route>, d: Defaults)
    ensures KeysOf(Grouped(targets, d)) == FirstSeen(KeysAsked(targets, d))
  {
    if targets != [] {
      var n := |targets| - 1;
      GroupsInOrder(targets[..n], d);
      assert KeysAsked(targets, d)[..n] == KeysAsked(targets[..n], d);
      ResolveIsAsked(targets[n], d);
      AddedKeySeq(Grouped(targets[..n], d), targets[n].fqdn, Resolve(targets[n], d));
    }
  }

  // ---------- Where a hard-bound group comes from ----------

  ghost predicate HostPortsOnce(bindings: seq<BindingRow>) {
    forall i, j :: 0 <= i < j < |bindings| ==> bindings[i].hostPort != bindings[j].hostPort
  }

  predicate FromBinding(r: Route, b: BindingRow) {
    r.hostPort == Some(b.hostPort) && r.targetService == b.targetService && r.targetPort == b.targetPort
  }

  ghost predicate Sourced(r: Route, bindings: seq<BindingRow>) {
    r.hostPort.Some? ==> exists b :: b in bindings && FromBinding(r, b)
  }

  lemma {:induction false} BindingsOfAmong(bindings: seq<BindingRow>, id: string)
    ensures forall b :: b in BindingsOf(bindings, id) ==> b in bindings
  {
    if bindings != [] {
      BindingsOfAmong(bindings[..|bindings| - 1], id);
    }
  }

  lemma {:induction false} FlatIsSourced(domains: seq<DomainRow>, bindings: seq<BindingRow>)
    ensures forall r <- Flat(domains, bindings) :: Sourced(r, bindings)
  {
    if domains != [] {
      var n := |domains| - 1;
      var row, own := domains[n], BindingsOf(bindings, domains[n].id);
      FlatIsSourced(domains[..n], bindings);
      BindingsOfAmong(bindings, row.id);
      forall i | 0 <= i < |own| ensures Sourced(BoundRoute(row, own[i]), bindings) {
        assert own[i] in own && FromBinding(BoundRoute(row, own[i]), own[i]);
      }
    }
  }

  lemma {:induction false} WithPrimaryAmong(routes: seq<Route>, primary: bool)
    ensures forall r <- WithPrimary(routes, primary) :: r in routes
  {
    if routes != [] { WithPrimaryAmong(routes[..|routes| - 1], primary); }
  }

  lemma {:induction false} KeyHasTarget(targets: seq<Route>, d: Defaults, k: RouteKey) returns (t: Route)
    requires HostsFor(targets, d, k) != []
    ensures t in targets && Resolve(t, d) == k
  {
    var n := |targets| - 1;
    if Resolve(targets[n], d) == k {
      t := targets[n];
    } else {
      t := KeyHasTarget(targets[..n], d, k);
    }
  }

  /** A host port bound once belongs to one group only. */
  lemma HostPortHasOneGroup(domains: seq<DomainRow>, bindings: seq<BindingRow>, d: Defaults, i: nat, j: nat)
    requires HostPortsOnce(bindings) && i < j < |Grouped(Expanded(domains, bindings), d)|
    requires Grouped(Expanded(domains, bindings), d)[i].key.hostPort.Some?
    ensures Grouped(Expanded(domains, bindings), d)[i].key.hostPort != Grouped(Expanded(domains, bindings), d)[j].key.hostPort
  {
    var targets, flat := Expanded(domains, bindings), Flat(domains, bindings);
    var groups := Grouped(targets, d);
    if groups[i].key.hostPort == groups[j].key.hostPort {
      GroupsByKey(targets, d);
      GroupHosts(targets, d, i);
      GroupHosts(targets, d, j);
      var t := KeyHasTarget(targets, d, groups[i].key);
      var u := KeyHasTarget(targets, d, groups[j].key);
      WithPrimaryAmong(flat, true);
      WithPrimaryAmong(flat, false);
      FlatIsSourced(domains, bindings);
      assert t in flat && u in flat;
      SameBindingSameKey(t, u, bindings, d);
    }
  }

  lemma SameBindingSameKey(t: Route, u: Route, bindings: seq<BindingRow>, d: Defaults)
    requires HostPortsOnce(bindings) && Sourced(t, bindings) && Sourced(u, bindings)
    requires t.hostPort.Some? && t.hostPort == u.hostPort
    ensures Resolve(t, d) == Resolve(u, d)
  {
    var b :| b in bindings && FromBinding(t, b);
    var c :| c in bindings && FromBinding(u, c);
    assert b == c;
  }
}
