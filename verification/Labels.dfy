/**
 From route groups to Traefik labels: LabelGeneratorService.forWebRoutes.
 */
module Labels {
  import opened Options
  import opened Text
  import opened Routes

  datatype Input = Input(
    deploymentId: string,
    routerPrefix: string,
    network: string,
    priority: nat,
    groups: seq<RouteGroup>)

  type LabelMap = map<string, string>

  // ---------- Names ----------

  predicate NameChar(c: char) {
    'a' <= c <= 'z' || 'A' <= c <= 'Z' || IsDigit(c) || c == '-'
  }

  function Sanitize(s: string): (r: string)
    ensures |r| == |s|
  {
    seq(|s|, i requires 0 <= i < |s| => if NameChar(s[i]) then s[i] else '-')
  }

  function ServiceName(k: RouteKey): string { Or(k.service, "app") }

  function PortSuffix(k: RouteKey): string {
    if k.hostPort.Some? then "p" + Decimal(k.hostPort.value) else Decimal(k.port)
  }

  function RouterName(prefix: string, k: RouteKey): string {
    Sanitize(prefix + "-" + ServiceName(k) + "-" + PortSuffix(k))
  }

  lemma SanitizeParts(a: string, b: string, c: string)
    ensures Sanitize(a + "-" + b + "-" + c) == Sanitize(a + "-") + Sanitize(b) + ['-'] + Sanitize(c)
  {
  }

  lemma SuffixSurvives(k: RouteKey)
    ensures Sanitize(PortSuffix(k)) == PortSuffix(k) && '-' !in PortSuffix(k)
  {
  }

  lemma SuffixDecodes(a: RouteKey, b: RouteKey)
    requires PortSuffix(a) == PortSuffix(b)
    ensures a.hostPort == b.hostPort && (a.hostPort.None? ==> a.port == b.port)
  {
    assert IsDigit(Decimal(a.port)[0]) && IsDigit(Decimal(b.port)[0]);
    if a.hostPort.Some? && b.hostPort.Some? {
      assert PortSuffix(a)[1..] == Decimal(a.hostPort.value) && PortSuffix(b)[1..] == Decimal(b.hostPort.value);
      DecimalInjective(a.hostPort.value, b.hostPort.value);
    } else if a.hostPort.None? && b.hostPort.None? {
      DecimalInjective(a.port, b.port);
    }
  }

  /** Exactly when two groups get the same router: the last hyphen separates the port part, and what is
      before it compares the sanitized services. */
  lemma RouterNamesCollide(prefix: string, a: RouteKey, b: RouteKey)
    ensures RouterName(prefix, a) == RouterName(prefix, b) <==>
            && Sanitize(ServiceName(a)) == Sanitize(ServiceName(b))
            && a.hostPort == b.hostPort && (a.hostPort.None? ==> a.port == b.port)
  {
    var pre := Sanitize(prefix + "-");
    var sa, sb := Sanitize(ServiceName(a)), Sanitize(ServiceName(b));
    SanitizeParts(prefix, ServiceName(a), PortSuffix(a));
    SanitizeParts(prefix, ServiceName(b), PortSuffix(b));
    SuffixSurvives(a);
    SuffixSurvives(b);
    if RouterName(prefix, a) == RouterName(prefix, b) {
      LastSeparator(pre + sa, PortSuffix(a), pre + sb, PortSuffix(b), '-');
      assert (pre + sa)[|pre|..] == sa && (pre + sb)[|pre|..] == sb;
      SuffixDecodes(a, b);
    }
  }

  // ---------- The labels ----------

  function HasAcmeResolver(base: string): bool {
    base != "localhost" && !EndsWith(base, ".localhost")
  }

  predicate EndsWith(s: string, tail: string) {
    |tail| <= |s| && s[|s| - |tail|..] == tail
  }

  predicate CoveredByWildcard(host: string, base: string) {
    if base == "" || host == base then host == base
    else if !EndsWith(host, "." + base) then false
    else
      var sub := host[..|host| - |base| - 1];
      |sub| > 0 && '.' !in sub
  }

  /** Host(`a`) || Host(`b`) || ... */
  function Rule(hosts: seq<string>): string {
    if hosts == [] then ""
    else "Host(" + ['`'] + hosts[0] + ['`'] + (if |hosts| == 1 then ")" else ") || ") + Rule(hosts[1..])
  }

  function EntryPoint(k: RouteKey): string {
    if k.hostPort.Some? then "port-" + Decimal(k.hostPort.value) else "websecure"
  }

  /** The labels of one router and its service. */
  datatype Slot = RuleSlot | EntryPoints | Tls | CertResolver | Middlewares | Priority | ServiceLink | ServerPort

  function RouterField(slot: Slot): string
    requires !slot.ServerPort?
  {
    match slot
    case RuleSlot => "rule"
    case EntryPoints => "entrypoints"
    case Tls => "tls"
    case CertResolver => "tls.certresolver"
    case Middlewares => "middlewares"
    case Priority => "priority"
    case ServiceLink => "service"
  }

  function LabelName(router: string, slot: Slot): string {
    if slot.ServerPort? then "traefik.http.services." + router + ".loadbalancer.server.port"
    else "traefik.http.routers." + router + "." + RouterField(slot)
  }

  predicate NeedsOwnCertificate(hosts: seq<string>, base: string) {
    HasAcmeResolver(base) && exists i :: 0 <= i < |hosts| && !CoveredByWildcard(hosts[i], base)
  }

  type Names = Slot -> string

  function NamesOf(router: string): Names {
    slot => LabelName(router, slot)
  }

  datatype Write = Write(slot: Slot, value: string)

  /** Assignments in order: a later one wins. */
  function Put(labels: LabelMap, names: Names, writes: seq<Write>): LabelMap {
    if writes == [] then labels
    else
      var n := |writes| - 1;
      Put(labels, names, writes[..n])[names(writes[n].slot) := writes[n].value]
  }

  function WritesOf(rule: string, entry: string, own: bool, priority: string, router: string, port: string): seq<Write> {
    [Write(RuleSlot, rule), Write(EntryPoints, entry), Write(Tls, "true")]
    + (if own then [Write(CertResolver, "ovh")] else [])
    + [Write(Middlewares, "sec-headers@file"), Write(Priority, priority), Write(ServiceLink, router),
       Write(ServerPort, port)]
  }

  /** What one group writes. */
  function Writes(base: string, input: Input, g: RouteGroup): seq<Write> {
    WritesOf(Rule(g.hosts), EntryPoint(g.key), NeedsOwnCertificate(g.hosts, base), Decimal(input.priority),
             RouterName(input.routerPrefix, g.key), Decimal(g.key.port))
  }

  function BaseLabels(input: Input): LabelMap {
    map["traefik.enable" := "true",
        "traefik.docker.network" := input.network,
        "willy.deploymentId" := input.deploymentId]
  }

  function RouterOf(input: Input, i: nat): string
    requires i < |input.groups|
  {
    RouterName(input.routerPrefix, input.groups[i].key)
  }

  /** What one turn of the loop writes, and under which names. */
  datatype Step = Step(names: Names, writes: seq<Write>)

  function StepOf(base: string, input: Input, i: nat): Step
    requires i < |input.groups|
  {
    Step(NamesOf(RouterOf(input, i)), Writes(base, input, input.groups[i]))
  }

  function Steps(base: string, input: Input): (steps: seq<Step>)
    ensures |steps| == |input.groups|
  {
    seq(|input.groups|, i requires 0 <= i < |input.groups| => StepOf(base, input, i))
  }

  function PutAll(start: LabelMap, steps: seq<Step>): LabelMap {
    if steps == [] then start
    else
      var n := |steps| - 1;
      Put(PutAll(start, steps[..n]), steps[n].names, steps[n].writes)
  }

  function AllLabels(base: string, input: Input): LabelMap {
    PutAll(BaseLabels(input), Steps(base, input))
  }

  /** `labels[...] = value`, recorded in `done`. */
  method Assign(labels: LabelMap, names: Names, slot: Slot, value: string,
                ghost before: LabelMap, ghost done: seq<Write>)
    returns (labels': LabelMap, ghost done': seq<Write>)
    requires labels == Put(before, names, done)
    ensures done' == done + [Write(slot, value)]
    ensures labels' == Put(before, names, done')
  {
    labels', done' := labels[names(slot) := value], done + [Write(slot, value)];
    assert done'[..|done|] == done;
  }

  method AssignAll(labels: LabelMap, names: Names, rule: string, entry: string, own: bool, priority: string,
                   router: string, port: string)
    returns (r: LabelMap)
    ensures r == Put(labels, names, WritesOf(rule, entry, own, priority, router, port))
  {
    ghost var done := [];
    r, done := Assign(labels, names, RuleSlot, rule, labels, done);
    r, done := Assign(r, names, EntryPoints, entry, labels, done);
    r, done := Assign(r, names, Tls, "true", labels, done);
    if own {
      r, done := Assign(r, names, CertResolver, "ovh", labels, done);
    }
    r, done := Assign(r, names, Middlewares, "sec-headers@file", labels, done);
    r, done := Assign(r, names, Priority, priority, labels, done);
    r, done := Assign(r, names, ServiceLink, router, labels, done);
    r, done := Assign(r, names, ServerPort, port, labels, done);
    assert done == WritesOf(rule, entry, own, priority, router, port);
  }

  method LabelGroup(labels: LabelMap, names: Names, base: string, input: Input, group: RouteGroup)
    returns (r: LabelMap)
    ensures r == Put(labels, names, Writes(base, input, group))
  {
    r := AssignAll(labels, names, Rule(group.hosts), EntryPoint(group.key), NeedsOwnCertificate(group.hosts, base),
                   Decimal(input.priority), RouterName(input.routerPrefix, group.key), Decimal(group.key.port));
  }

  method ForWebRoutes(base: string, input: Input) returns (labels: LabelMap)
    ensures labels == AllLabels(base, input)
  {
    ghost var steps := Steps(base, input);
    labels := BaseLabels(input);
    for n := 0 to |input.groups|
      invariant labels == PutAll(BaseLabels(input), steps[..n])
    {
      assert steps[..n + 1][..n] == steps[..n];
      labels := LabelGroup(labels, NamesOf(RouterOf(input, n)), base, input, input.groups[n]);
    }
    assert steps[..|steps|] == steps;
  }

  // ---------- No label overwrites another ----------

  lemma RouterHasNoDot(prefix: string, k: RouteKey)
    ensures '.' !in RouterName(prefix, k)
  {
  }

  lemma FieldsDiffer(a: Slot, b: Slot)
    requires !a.ServerPort? && !b.ServerPort? && a != b
    ensures RouterField(a) != RouterField(b)
  {
    assert RouterField(EntryPoints)[0] == 'e' && RouterField(Middlewares)[0] == 'm';
  }

  lemma KindsDiffer(r: string, a: Slot, q: string)
    requires !a.ServerPort?
    ensures LabelName(r, a) != LabelName(q, ServerPort)
  {
    assert LabelName(r, a)[13] == 'r' && LabelName(q, ServerPort)[13] == 's';
  }

  lemma ServerPortTells(r: string, q: string)
    requires LabelName(r, ServerPort) == LabelName(q, ServerPort)
    ensures r == q
  {
    var n, m, tail := LabelName(r, ServerPort), LabelName(q, ServerPort), ".loadbalancer.server.port";
    assert n[22..|n| - |tail|] == r && m[22..|m| - |tail|] == q;
  }

  lemma FieldAfterPrefix(pre: string, r: string, f: string, q: string, g: string)
    requires '.' !in r && '.' !in q && pre + r + "." + f == pre + q + "." + g
    ensures r == q && f == g
  {
    var n := pre + r + "." + f;
    assert n[|pre|..] == r + ['.'] + f && n[|pre|..] == q + ['.'] + g;
    FirstSeparator(r, f, q, g, '.');
  }

  lemma FieldTells(r: string, a: Slot, q: string, b: Slot)
    requires '.' !in r && '.' !in q && !a.ServerPort? && !b.ServerPort? && LabelName(r, a) == LabelName(q, b)
    ensures r == q && RouterField(a) == RouterField(b)
  {
    FieldAfterPrefix("traefik.http.routers.", r, RouterField(a), q, RouterField(b));
  }

  /** A label name tells its router and its slot. */
  lemma LabelNameInjective(r: string, a: Slot, q: string, b: Slot)
    requires '.' !in r && '.' !in q && LabelName(r, a) == LabelName(q, b)
    ensures r == q && a == b
  {
    if a.ServerPort? && b.ServerPort? {
      ServerPortTells(r, q);
    } else if a.ServerPort? {
      KindsDiffer(q, b, r);
    } else if b.ServerPort? {
      KindsDiffer(r, a, q);
    } else {
      FieldTells(r, a, q, b);
      if a != b { FieldsDiffer(a, b); }
    }
  }

  ghost predicate Injective(names: Names) {
    forall a: Slot, b: Slot :: names(a) == names(b) ==> a == b
  }

  lemma NamesInjective(r: string)
    requires '.' !in r
    ensures Injective(NamesOf(r))
  {
    forall a: Slot, b: Slot | NamesOf(r)(a) == NamesOf(r)(b) ensures a == b {
      LabelNameInjective(r, a, r, b);
    }
  }

  lemma NamesDisjoint(r: string, q: string)
    requires '.' !in r && '.' !in q && r != q
    ensures forall a: Slot, b: Slot :: NamesOf(r)(a) != NamesOf(q)(b)
  {
    forall a: Slot, b: Slot ensures NamesOf(r)(a) != NamesOf(q)(b) {
      if LabelName(r, a) == LabelName(q, b) { LabelNameInjective(r, a, q, b); }
    }
  }

  lemma {:induction false} PutReads(labels: LabelMap, names: Names, writes: seq<Write>, i: nat)
    requires i < |writes| && forall j :: i < j < |writes| ==> names(writes[j].slot) != names(writes[i].slot)
    ensures Says(Put(labels, names, writes), names, writes[i].slot, writes[i].value)
  {
    var n := |writes| - 1;
    if i < n { PutReads(labels, names, writes[..n], i); }
  }

  lemma {:induction false} PutLeaves(labels: LabelMap, names: Names, writes: seq<Write>, name: string)
    requires forall j :: 0 <= j < |writes| ==> names(writes[j].slot) != name
    ensures name in Put(labels, names, writes) <==> name in labels
    ensures name in labels ==> Put(labels, names, writes)[name] == labels[name]
  {
    if writes != [] { PutLeaves(labels, names, writes[..|writes| - 1], name); }
  }

  predicate Says(labels: LabelMap, names: Names, slot: Slot, value: string) {
    names(slot) in labels && labels[names(slot)] == value
  }

  /** What the labels say about the group `g`, apart from its certificate resolver. */
  predicate Tells(labels: LabelMap, names: Names, router: string, g: RouteGroup, priority: nat) {
    && Says(labels, names, RuleSlot, Rule(g.hosts))
    && Says(labels, names, EntryPoints, EntryPoint(g.key))
    && Says(labels, names, Tls, "true")
    && Says(labels, names, ServiceLink, router)
    && Says(labels, names, ServerPort, Decimal(g.key.port))
    && Says(labels, names, Middlewares, "sec-headers@file")
    && Says(labels, names, Priority, Decimal(priority))
  }

  predicate DistinctSlots(writes: seq<Write>) {
    forall i, j :: 0 <= i < j < |writes| ==> writes[i].slot != writes[j].slot
  }

  lemma SlotsDistinct(rule: string, entry: string, own: bool, priority: string, router: string, port: string)
    ensures DistinctSlots(WritesOf(rule, entry, own, priority, router, port))
  {
  }

  lemma WritesDistinct(base: string, input: Input, g: RouteGroup)
    ensures DistinctSlots(Writes(base, input, g))
  {
    SlotsDistinct(Rule(g.hosts), EntryPoint(g.key), NeedsOwnCertificate(g.hosts, base), Decimal(input.priority),
                  RouterName(input.routerPrefix, g.key), Decimal(g.key.port));
  }

  lemma PutSaysAll(labels: LabelMap, names: Names, writes: seq<Write>)
    requires Injective(names) && DistinctSlots(writes)
    ensures forall i :: 0 <= i < |writes| ==> Says(Put(labels, names, writes), names, writes[i].slot, writes[i].value)
  {
    forall i | 0 <= i < |writes|
      ensures Says(Put(labels, names, writes), names, writes[i].slot, writes[i].value)
    {
      PutReads(labels, names, writes, i);
    }
  }

  ghost predicate Avoids(step: Step, name: string) {
    forall slot: Slot :: step.names(slot) != name
  }

  lemma {:induction false} PutAllLeaves(start: LabelMap, steps: seq<Step>, name: string)
    requires forall i :: 0 <= i < |steps| ==> Avoids(steps[i], name)
    ensures name in PutAll(start, steps) <==> name in start
    ensures name in start ==> PutAll(start, steps)[name] == start[name]
  {
    if steps != [] {
      var n := |steps| - 1;
      PutAllLeaves(start, steps[..n], name);
      assert Avoids(steps[n], name);
      PutLeaves(PutAll(start, steps[..n]), steps[n].names, steps[n].writes, name);
    }
  }

  /** What a step writes is there at the end, when no later step writes under the same name. */
  lemma {:induction false} PutAllSays(start: LabelMap, steps: seq<Step>, i: nat, k: nat)
    requires i < |steps| && Injective(steps[i].names) && DistinctSlots(steps[i].writes) && k < |steps[i].writes|
    requires forall j :: i < j < |steps| ==> Avoids(steps[j], steps[i].names(steps[i].writes[k].slot))
    ensures Says(PutAll(start, steps), steps[i].names, steps[i].writes[k].slot, steps[i].writes[k].value)
  {
    var n := |steps| - 1;
    var before := PutAll(start, steps[..n]);
    if i == n {
      PutSaysAll(before, steps[n].names, steps[n].writes);
    } else {
      PutAllSays(start, steps[..n], i, k);
      assert Avoids(steps[n], steps[i].names(steps[i].writes[k].slot));
      PutLeaves(before, steps[n].names, steps[n].writes, steps[i].names(steps[i].writes[k].slot));
    }
  }

  predicate WritesName(step: Step, name: string) {
    exists k :: 0 <= k < |step.writes| && step.names(step.writes[k].slot) == name
  }

  /** The labels at the end are those at first and those that a step writes. */
  lemma {:induction false} PutAllHas(start: LabelMap, steps: seq<Step>, name: string)
    ensures name in PutAll(start, steps) <==>
            name in start || exists i :: 0 <= i < |steps| && WritesName(steps[i], name)
  {
    if steps != [] {
      var n := |steps| - 1;
      PutAllHas(start, steps[..n], name);
      PutHas(PutAll(start, steps[..n]), steps[n], steps[n].writes, name);
      assert steps[n] == Step(steps[n].names, steps[n].writes);
      if i :| 0 <= i < |steps| && WritesName(steps[i], name) {
        assert i < n ==> steps[..n][i] == steps[i];
      }
    }
  }

  lemma {:induction false} PutHas(labels: LabelMap, step: Step, writes: seq<Write>, name: string)
    ensures name in Put(labels, step.names, writes) <==> name in labels || WritesName(Step(step.names, writes), name)
  {
    if writes != [] {
      var n := |writes| - 1;
      PutHas(labels, step, writes[..n], name);
      if k :| 0 <= k < |writes| && step.names(writes[k].slot) == name {
        assert k < n ==> step.names(writes[..n][k].slot) == name;
      }
    }
  }

  /** A label that was not there at first has the value of a write. */
  lemma {:induction false} PutFrom(labels: LabelMap, names: Names, writes: seq<Write>, name: string) returns (k: nat)
    requires name in Put(labels, names, writes)
    requires name !in labels || Put(labels, names, writes)[name] != labels[name]
    ensures k < |writes| && names(writes[k].slot) == name && Put(labels, names, writes)[name] == writes[k].value
  {
    var n := |writes| - 1;
    if names(writes[n].slot) == name {
      k := n;
    } else {
      k := PutFrom(labels, names, writes[..n], name);
    }
  }

  lemma {:induction false} PutAllFrom(start: LabelMap, steps: seq<Step>, name: string) returns (i: nat, k: nat)
    requires name in PutAll(start, steps) && name !in start
    ensures i < |steps| && k < |steps[i].writes| && steps[i].names(steps[i].writes[k].slot) == name
    ensures PutAll(start, steps)[name] == steps[i].writes[k].value
  {
    var n := |steps| - 1;
    var before := PutAll(start, steps[..n]);
    if name in before && PutAll(start, steps)[name] == before[name] {
      i, k := PutAllFrom(start, steps[..n], name);
    } else {
      i := n;
      k := PutFrom(before, steps[n].names, steps[n].writes, name);
    }
  }

  // ---------- The steps of the groups ----------

  ghost predicate TellsGroup(labels: LabelMap, input: Input, i: nat)
    requires i < |input.groups|
  {
    Tells(labels, NamesOf(RouterOf(input, i)), RouterOf(input, i), input.groups[i], input.priority)
  }

  lemma StepIsSound(base: string, input: Input, i: nat)
    requires i < |input.groups|
    ensures Injective(StepOf(base, input, i).names) && DistinctSlots(StepOf(base, input, i).writes)
  {
    RouterHasNoDot(input.routerPrefix, input.groups[i].key);
    NamesInjective(RouterOf(input, i));
    WritesDistinct(base, input, input.groups[i]);
  }

  lemma OthersAvoid(base: string, input: Input, i: nat, j: nat, slot: Slot)
    requires i < |input.groups| && j < |input.groups| && RouterOf(input, i) != RouterOf(input, j)
    ensures Avoids(StepOf(base, input, j), StepOf(base, input, i).names(slot))
  {
    RouterHasNoDot(input.routerPrefix, input.groups[i].key);
    RouterHasNoDot(input.routerPrefix, input.groups[j].key);
    NamesDisjoint(RouterOf(input, i), RouterOf(input, j));
  }

  /** What one group writes, in order, with or without its own certificate. */
  lemma WrittenAt(rule: string, entry: string, own: bool, priority: string, router: string, port: string)
    ensures var w := WritesOf(rule, entry, own, priority, router, port);
            var last := |w| - 1;
            && last == (if own then 7 else 6)
            && w[0] == Write(RuleSlot, rule) && w[1] == Write(EntryPoints, entry) && w[2] == Write(Tls, "true")
            && (own ==> w[3] == Write(CertResolver, "ovh"))
            && w[last - 3] == Write(Middlewares, "sec-headers@file") && w[last - 2] == Write(Priority, priority)
            && w[last - 1] == Write(ServiceLink, router) && w[last] == Write(ServerPort, port)
            && (own <==> exists k :: 0 <= k < |w| && w[k].slot == CertResolver)
  {
  }

  /** When two groups share a router the later one wins. */
  lemma LastOfRouterTells(base: string, input: Input, i: nat)
    requires i < |input.groups|
    requires forall j :: i < j < |input.groups| ==> RouterOf(input, i) != RouterOf(input, j)
    ensures TellsGroup(AllLabels(base, input), input, i)
  {
    var steps, g := Steps(base, input), input.groups[i];
    WrittenAt(Rule(g.hosts), EntryPoint(g.key), NeedsOwnCertificate(g.hosts, base), Decimal(input.priority),
              RouterName(input.routerPrefix, g.key), Decimal(g.key.port));
    StepIsSound(base, input, i);
    forall k: nat | k < |steps[i].writes|
      ensures Says(AllLabels(base, input), steps[i].names, steps[i].writes[k].slot, steps[i].writes[k].value)
    {
      forall j | i < j < |steps| ensures Avoids(steps[j], steps[i].names(steps[i].writes[k].slot)) {
        OthersAvoid(base, input, i, j, steps[i].writes[k].slot);
      }
      PutAllSays(BaseLabels(input), steps, i, k);
    }
    AllSaidTells(AllLabels(base, input), steps[i].names, Writes(base, input, g), base, input, g);
  }

  lemma AllSaidTells(labels: LabelMap, names: Names, writes: seq<Write>, base: string, input: Input, g: RouteGroup)
    requires writes == Writes(base, input, g)
    requires forall k: nat :: k < |writes| ==> Says(labels, names, writes[k].slot, writes[k].value)
    ensures Tells(labels, names, RouterName(input.routerPrefix, g.key), g, input.priority)
  {
    var last := |writes| - 1;
    WrittenAt(Rule(g.hosts), EntryPoint(g.key), NeedsOwnCertificate(g.hosts, base), Decimal(input.priority),
              RouterName(input.routerPrefix, g.key), Decimal(g.key.port));
    assert Says(labels, names, writes[0].slot, writes[0].value) && Says(labels, names, writes[1].slot, writes[1].value);
    assert Says(labels, names, writes[2].slot, writes[2].value);
    assert Says(labels, names, writes[last - 3].slot, writes[last - 3].value);
    assert Says(labels, names, writes[last - 2].slot, writes[last - 2].value);
    assert Says(labels, names, writes[last - 1].slot, writes[last - 1].value);
    assert Says(labels, names, writes[last].slot, writes[last].value);
  }

  lemma NotABaseLabel(router: string, slot: Slot, input: Input)
    ensures LabelName(router, slot) !in BaseLabels(input)
  {
    var name := LabelName(router, slot);
    assert name[8] == 'h' && name[0] == 't';
  }

  lemma NamesResolver(r: string, q: string, slot: Slot)
    requires '.' !in r && '.' !in q
    ensures LabelName(q, slot) == LabelName(r, CertResolver) <==> r == q && slot == CertResolver
  {
    if LabelName(q, slot) == LabelName(r, CertResolver) { LabelNameInjective(r, CertResolver, q, slot); }
  }

  lemma WritesCertResolver(base: string, input: Input, g: RouteGroup)
    ensures (exists k :: 0 <= k < |Writes(base, input, g)| && Writes(base, input, g)[k].slot == CertResolver) <==>
            NeedsOwnCertificate(g.hosts, base)
  {
    var own, w := NeedsOwnCertificate(g.hosts, base), Writes(base, input, g);
    WrittenAt(Rule(g.hosts), EntryPoint(g.key), own, Decimal(input.priority),
              RouterName(input.routerPrefix, g.key), Decimal(g.key.port));
    if own { assert w[3].slot == CertResolver; }
    if k :| 0 <= k < |w| && w[k].slot == CertResolver { assert own; }
  }

  lemma WritesResolverIff(base: string, input: Input, i: nat, j: nat)
    requires i < |input.groups| && j < |input.groups|
    ensures WritesName(StepOf(base, input, j), LabelName(RouterOf(input, i), CertResolver)) <==>
            RouterOf(input, i) == RouterOf(input, j) && NeedsOwnCertificate(input.groups[j].hosts, base)
  {
    var step, r, q := StepOf(base, input, j), RouterOf(input, i), RouterOf(input, j);
    WritesCertResolver(base, input, input.groups[j]);
    RouterHasNoDot(input.routerPrefix, input.groups[i].key);
    RouterHasNoDot(input.routerPrefix, input.groups[j].key);
    forall k | 0 <= k < |step.writes|
      ensures step.names(step.writes[k].slot) == LabelName(r, CertResolver) <==>
              r == q && step.writes[k].slot == CertResolver
    {
      NamesResolver(r, q, step.writes[k].slot);
    }
  }

  /** Some group of the router needs its own certificate. */
  ghost predicate SomeGroupNeeds(base: string, input: Input, i: nat)
    requires i < |input.groups|
  {
    exists j :: 0 <= j < |input.groups| && RouterOf(input, i) == RouterOf(input, j)
                && NeedsOwnCertificate(input.groups[j].hosts, base)
  }

  /** A router has a certificate resolver exactly when some group of it needs its own certificate. */
  lemma ResolverIff(base: string, input: Input, i: nat)
    requires i < |input.groups|
    ensures LabelName(RouterOf(input, i), CertResolver) in AllLabels(base, input) <==> SomeGroupNeeds(base, input, i)
  {
    var name := LabelName(RouterOf(input, i), CertResolver);
    NotABaseLabel(RouterOf(input, i), CertResolver, input);
    PutAllHas(BaseLabels(input), Steps(base, input), name);
    forall j: nat | j < |input.groups|
      ensures WritesName(Steps(base, input)[j], name) <==>
              RouterOf(input, i) == RouterOf(input, j) && NeedsOwnCertificate(input.groups[j].hosts, base)
    {
      WritesResolverIff(base, input, i, j);
    }
  }

  /** With a router of its own, a group has one exactly when it needs its own certificate. */
  lemma OwnResolverIff(base: string, input: Input, i: nat)
    requires i < |input.groups| && DistinctRouters(input)
    ensures LabelName(RouterOf(input, i), CertResolver) in AllLabels(base, input) <==>
            NeedsOwnCertificate(input.groups[i].hosts, base)
  {
    ResolverIff(base, input, i);
    OnlyItsGroupNeeds(base, input, i);
  }

  lemma OnlyItsGroupNeeds(base: string, input: Input, i: nat)
    requires i < |input.groups| && DistinctRouters(input)
    ensures SomeGroupNeeds(base, input, i) <==> NeedsOwnCertificate(input.groups[i].hosts, base)
  {
    assert forall j :: 0 <= j < |input.groups| && RouterOf(input, i) == RouterOf(input, j) ==> i == j;
  }

  // ---------- Reading the labels back ----------

  /** The hosts of a rule: what stands between its backticks. */
  function HostsOfRule(rule: string): seq<string> {
    Odds(Split(rule, '`'))
  }

  function Odds(parts: seq<string>): seq<string> {
    if |parts| < 2 then [] else [parts[1]] + Odds(parts[2..])
  }

  lemma Rejoin(before: string, open: string, tick: string, h: string, close: string, more: string)
    ensures before + (open + tick + h + tick + close + more) == (before + open) + tick + (h + tick + (close + more))
  {
  }

  lemma OddsOfTwo(a: string, b: string, rest: seq<string>)
    ensures Odds([a] + ([b] + rest)) == [b] + Odds(rest)
  {
    assert ([a] + ([b] + rest))[2..] == rest;
  }

  lemma {:induction false} RuleReadsBack(before: string, hosts: seq<string>)
    requires '`' !in before && forall i :: 0 <= i < |hosts| ==> '`' !in hosts[i]
    ensures HostsOfRule(before + Rule(hosts)) == hosts
    decreases |hosts|
  {
    if hosts == [] {
      assert before + Rule(hosts) == before;
      SplitOfNone(before, '`');
    } else {
      var h, between := hosts[0], if |hosts| == 1 then ")" else ") || ";
      var rest := between + Rule(hosts[1..]);
      RuleReadsBack(between, hosts[1..]);
      Rejoin(before, "Host(", ['`'], h, between, Rule(hosts[1..]));
      SplitAtFirst(before + "Host(", '`', h + ['`'] + rest);
      SplitAtFirst(h, '`', rest);
      OddsOfTwo(before + "Host(", h, Split(rest, '`'));
    }
  }

  function HostPortOf(entryPoint: string): Option<nat> {
    if |entryPoint| > 5 && entryPoint[..5] == "port-" && AllDigits(entryPoint[5..]) then Some(Value(entryPoint[5..]))
    else None
  }

  lemma EntryPointReadsBack(k: RouteKey)
    ensures HostPortOf(EntryPoint(k)) == k.hostPort
  {
    if k.hostPort.Some? {
      assert EntryPoint(k)[..5] == "port-" && EntryPoint(k)[5..] == Decimal(k.hostPort.value);
      ValueOfDecimal(k.hostPort.value);
    } else {
      assert EntryPoint(k)[0] == 'w';
    }
  }

  ghost predicate DistinctRouters(input: Input) {
    forall i, j :: 0 <= i < j < |input.groups| ==> RouterOf(input, i) != RouterOf(input, j)
  }

  /** With distinct routers nothing is overwritten and everything can be read back: from the labels of its
      router come the hosts of each group, its host port and its target port, and whether it gets its own
      certificate. */
  lemma LabelsReadBack(base: string, input: Input, i: nat)
    requires i < |input.groups| && DistinctRouters(input)
    requires forall h <- input.groups[i].hosts :: '`' !in h
    ensures var labels, names, g := AllLabels(base, input), NamesOf(RouterOf(input, i)), input.groups[i];
            && TellsGroup(labels, input, i)
            && HostsOfRule(labels[names(RuleSlot)]) == g.hosts
            && HostPortOf(labels[names(EntryPoints)]) == g.key.hostPort
            && AllDigits(labels[names(ServerPort)]) && Value(labels[names(ServerPort)]) == g.key.port
            && (names(CertResolver) in labels <==> NeedsOwnCertificate(g.hosts, base))
  {
    var g := input.groups[i];
    LastOfRouterTells(base, input, i);
    OwnResolverIff(base, input, i);
    EntryPointReadsBack(g.key);
    ValueOfDecimal(g.key.port);
    RuleReadsBack("", g.hosts);
    assert "" + Rule(g.hosts) == Rule(g.hosts);
  }

  /** When routers are distinct: groups of distinct keys, host ports bound once, and service names that
      stay distinct once sanitized. */
  lemma RoutersAreDistinct(input: Input)
    requires DistinctKeys(input.groups)
    requires forall i, j :: 0 <= i < j < |input.groups| && input.groups[i].key.hostPort.Some? ==>
               input.groups[i].key.hostPort != input.groups[j].key.hostPort
    requires forall i, j :: 0 <= i < j < |input.groups| ==>
               Sanitize(ServiceName(input.groups[i].key)) == Sanitize(ServiceName(input.groups[j].key)) ==>
               input.groups[i].key.service == input.groups[j].key.service
    ensures DistinctRouters(input)
  {
    forall i, j | 0 <= i < j < |input.groups|
      ensures RouterOf(input, i) != RouterOf(input, j)
    {
      RouterNamesCollide(input.routerPrefix, input.groups[i].key, input.groups[j].key);
    }
  }

  /** From the rows of a deployment to its labels: with host ports bound once,
      services that stay distinct once sanitized and hosts without a backtick, every compiled group can
      be read back from the labels. */
  lemma DeploymentReadsBack(domains: seq<DomainRow>, bindings: seq<BindingRow>, d: Defaults, base: string,
                            input: Input, i: nat)
    requires input.groups == Grouped(Expanded(domains, bindings), d) && i < |input.groups|
    requires HostPortsOnce(bindings)
    requires forall j, k :: 0 <= j < k < |input.groups| ==>
               Sanitize(ServiceName(input.groups[j].key)) == Sanitize(ServiceName(input.groups[k].key)) ==>
               input.groups[j].key.service == input.groups[k].key.service
    requires forall h <- input.groups[i].hosts :: '`' !in h
    ensures var labels, names, g := AllLabels(base, input), NamesOf(RouterOf(input, i)), input.groups[i];
            && TellsGroup(labels, input, i)
            && HostsOfRule(labels[names(RuleSlot)]) == HostsAsked(domains, bindings, d, g.key, true)
                                                       + HostsAsked(domains, bindings, d, g.key, false)
            && HostPortOf(labels[names(EntryPoints)]) == g.key.hostPort
            && (names(CertResolver) in labels <==> NeedsOwnCertificate(g.hosts, base))
  {
    GroupsByKey(Expanded(domains, bindings), d);
    GroupHostsAsked(domains, bindings, d, i);
    forall j, k | 0 <= j < k < |input.groups| && input.groups[j].key.hostPort.Some?
      ensures input.groups[j].key.hostPort != input.groups[k].key.hostPort
    {
      HostPortHasOneGroup(domains, bindings, d, j, k);
    }
    RoutersAreDistinct(input);
    LabelsReadBack(base, input, i);
  }

  // ---------- The labels determine what they were made from ----------

  /** The three labels of the container itself are there as well. */
  lemma BaseLabelsSurvive(base: string, input: Input, name: string)
    requires name in BaseLabels(input)
    ensures name in AllLabels(base, input) && AllLabels(base, input)[name] == BaseLabels(input)[name]
  {
    forall i | 0 <= i < |input.groups| ensures Avoids(Steps(base, input)[i], name) {
      forall slot: Slot ensures Steps(base, input)[i].names(slot) != name {
        NotABaseLabel(RouterOf(input, i), slot, input);
      }
    }
    PutAllLeaves(BaseLabels(input), Steps(base, input), name);
  }

  /** There are no labels but those of the container and those of the groups' routers. */
  lemma NoOtherLabels(base: string, input: Input, name: string) returns (i: nat, slot: Slot)
    requires name in AllLabels(base, input) && name !in BaseLabels(input)
    ensures i < |input.groups| && name == LabelName(RouterOf(input, i), slot)
  {
    PutAllHas(BaseLabels(input), Steps(base, input), name);
    i :| 0 <= i < |input.groups| && WritesName(Steps(base, input)[i], name);
    var step := Steps(base, input)[i];
    var k :| 0 <= k < |step.writes| && step.names(step.writes[k].slot) == name;
    slot := step.writes[k].slot;
  }

  ghost predicate NoBackticks(input: Input) {
    forall i :: 0 <= i < |input.groups| ==> forall h <- input.groups[i].hosts :: '`' !in h
  }

  lemma SameRouter(base: string, input: Input, base': string, input': Input, i: nat) returns (j: nat)
    requires AllLabels(base, input) == AllLabels(base', input') && i < |input.groups| && DistinctRouters(input)
    ensures j < |input'.groups| && RouterOf(input', j) == RouterOf(input, i)
  {
    var name := LabelName(RouterOf(input, i), RuleSlot);
    AllTold(base, input, i);
    NotABaseLabel(RouterOf(input, i), RuleSlot, input');
    var slot: Slot;
    j, slot := NoOtherLabels(base', input', name);
    RouterHasNoDot(input.routerPrefix, input.groups[i].key);
    RouterHasNoDot(input'.routerPrefix, input'.groups[j].key);
    LabelNameInjective(RouterOf(input, i), RuleSlot, RouterOf(input', j), slot);
  }

  lemma AllTold(base: string, input: Input, i: nat)
    requires i < |input.groups| && DistinctRouters(input)
    ensures TellsGroup(AllLabels(base, input), input, i)
    ensures LabelName(RouterOf(input, i), RuleSlot) in AllLabels(base, input)
  {
    LastOfRouterTells(base, input, i);
  }

  /** What the labels of one router say is one group's. */
  lemma ToldAlike(labels: LabelMap, names: Names, router: string, g: RouteGroup, priority: nat,
                  router': string, g': RouteGroup, priority': nat)
    requires Tells(labels, names, router, g, priority) && Tells(labels, names, router', g', priority')
    requires forall h <- g.hosts :: '`' !in h
    requires forall h <- g'.hosts :: '`' !in h
    ensures g.hosts == g'.hosts && g.key.hostPort == g'.key.hostPort && g.key.port == g'.key.port
    ensures priority == priority'
  {
    RuleReadsBack("", g.hosts);
    RuleReadsBack("", g'.hosts);
    assert "" + Rule(g.hosts) == Rule(g.hosts) && "" + Rule(g'.hosts) == Rule(g'.hosts);
    EntryPointReadsBack(g.key);
    EntryPointReadsBack(g'.key);
    DecimalInjective(g.key.port, g'.key.port);
    DecimalInjective(priority, priority');
  }

  /** Label generation is injective: with distinct routers and hosts without a backtick, inputs with the same labels
      have the same groups, up to order and to what sanitizing merges in service names. */
  lemma LabelsAreInjective(base: string, input: Input, base': string, input': Input, i: nat) returns (j: nat)
    requires DistinctRouters(input) && DistinctRouters(input') && NoBackticks(input) && NoBackticks(input')
    requires AllLabels(base, input) == AllLabels(base', input') && i < |input.groups|
    ensures j < |input'.groups| && RouterOf(input', j) == RouterOf(input, i)
    ensures var g, g' := input.groups[i], input'.groups[j];
            && g.hosts == g'.hosts && g.key.hostPort == g'.key.hostPort && g.key.port == g'.key.port
            && (input.routerPrefix == input'.routerPrefix ==>
                  Sanitize(ServiceName(g.key)) == Sanitize(ServiceName(g'.key)))
    ensures NeedsOwnCertificate(input.groups[i].hosts, base) <==> NeedsOwnCertificate(input'.groups[j].hosts, base')
    ensures input.priority == input'.priority
  {
    j := SameRouter(base, input, base', input', i);
    AllTold(base, input, i);
    AllTold(base', input', j);
    OwnResolverIff(base, input, i);
    OwnResolverIff(base', input', j);
    var router := RouterOf(input, i);
    ToldAlike(AllLabels(base, input), NamesOf(router), router, input.groups[i], input.priority,
              router, input'.groups[j], input'.priority);
    if input.routerPrefix == input'.routerPrefix {
      RouterNamesCollide(input.routerPrefix, input.groups[i].key, input'.groups[j].key);
    }
  }

  lemma ContainerLabelsAreInjective(base: string, input: Input, base': string, input': Input)
    requires AllLabels(base, input) == AllLabels(base', input')
    ensures input.network == input'.network && input.deploymentId == input'.deploymentId
  {
    BaseLabelsSurvive(base, input, "traefik.docker.network");
    BaseLabelsSurvive(base, input, "willy.deploymentId");
    BaseLabelsSurvive(base', input', "traefik.docker.network");
    BaseLabelsSurvive(base', input', "willy.deploymentId");
  }

  // ---------- The wildcard certificate ----------

  /** Exactly one label under the base domain. */
  ghost predicate OneLabelUnder(host: string, base: string) {
    exists sub: string :: IsUnder(host, sub, base)
  }

  predicate IsUnder(host: string, sub: string, base: string) {
    sub != "" && '.' !in sub && host == sub + ("." + base)
  }

  lemma CoveredMeaning(host: string, base: string)
    ensures CoveredByWildcard(host, base) <==> host == base || (base != "" && OneLabelUnder(host, base))
  {
    if base != "" && host != base {
      if OneLabelUnder(host, base) {
        var sub: string :| IsUnder(host, sub, base);
        assert host[|sub|..] == "." + base && host[..|sub|] == sub;
      }
      if CoveredByWildcard(host, base) {
        var at := |host| - |base| - 1;
        assert host == host[..at] + host[at..];
        assert IsUnder(host, host[..at], base);
      }
    }
  }

  /** There is a resolver exactly outside the local stack. */
  lemma AcmeMeaning(base: string)
    ensures HasAcmeResolver(base) <==>
            base != "localhost" && forall sub: string :: base != sub + ".localhost"
  {
    var tail := ".localhost";
    if EndsWith(base, tail) {
      assert base == base[..|base| - |tail|] + tail;
    }
    forall sub: string | base == sub + tail ensures EndsWith(base, tail) {
      assert base[|base| - |tail|..] == tail;
    }
  }

  /** A group gets its own certificate exactly when ACME exists and some host of it is neither the base
      domain nor one label under it. */
  lemma OwnCertificateMeaning(hosts: seq<string>, base: string)
    ensures NeedsOwnCertificate(hosts, base) <==>
            && base != "localhost" && (forall sub: string :: base != sub + ".localhost")
            && exists h :: h in hosts && h != base && !(base != "" && OneLabelUnder(h, base))
  {
    AcmeMeaning(base);
    forall h | h in hosts
      ensures CoveredByWildcard(h, base) <==> h == base || (base != "" && OneLabelUnder(h, base))
    {
      CoveredMeaning(h, base);
    }
    if h :| h in hosts && !CoveredByWildcard(h, base) {
      var i :| 0 <= i < |hosts| && hosts[i] == h;
      assert !CoveredByWildcard(hosts[i], base);
    }
    if i :| 0 <= i < |hosts| && !CoveredByWildcard(hosts[i], base) {
      assert hosts[i] in hosts;
    }
  }

  // ---------- The labels, letter by letter ----------

  /** Anything but letters, digits and hyphens has become a hyphen. */
  ghost predicate IsSanitized(r: string, text: string) {
    && |r| == |text|
    && forall i :: 0 <= i < |r| ==>
         r[i] == if 'a' <= text[i] <= 'z' || 'A' <= text[i] <= 'Z' || '0' <= text[i] <= '9' then text[i] else '-'
  }

  ghost predicate RouterSpelled(r: string, prefix: string, k: RouteKey) {
    var service := match k.service case Some(s) => s case None => "app";
    var port := match k.hostPort case Some(p) => "p" + Decimal(p) case None => Decimal(k.port);
    IsSanitized(r, prefix + "-" + service + "-" + port)
  }

  ghost predicate RuleSpelled(rule: string, hosts: seq<string>) {
    if hosts == [] then rule == ""
    else if |hosts| == 1 then rule == "Host(`" + hosts[0] + "`)"
    else
      var first := "Host(`" + hosts[0] + "`) || ";
      first <= rule && RuleSpelled(rule[|first|..], hosts[1..])
  }

  ghost predicate EntrySpelled(entry: string, hostPort: Option<nat>) {
    match hostPort
    case None => entry == "websecure"
    case Some(p) => entry == "port-" + Decimal(p)
  }

  ghost predicate Labelled(labels: LabelMap, name: string, value: string) {
    name in labels && labels[name] == value
  }

  /** All labels of a router, as Traefik reads them. */
  ghost predicate GroupSpelled(labels: LabelMap, r: string, g: RouteGroup, priority: nat) {
    var router := "traefik.http.routers." + r + ".";
    && router + "rule" in labels && RuleSpelled(labels[router + "rule"], g.hosts)
    && router + "entrypoints" in labels && EntrySpelled(labels[router + "entrypoints"], g.key.hostPort)
    && Labelled(labels, router + "tls", "true")
    && Labelled(labels, router + "middlewares", "sec-headers@file")
    && Labelled(labels, router + "priority", Decimal(priority))
    && Labelled(labels, router + "service", r)
    && Labelled(labels, "traefik.http.services." + r + ".loadbalancer.server.port", Decimal(g.key.port))
    && (router + "tls.certresolver" in labels ==> labels[router + "tls.certresolver"] == "ovh")
  }

  lemma {:induction false} RuleIsSpelled(hosts: seq<string>)
    ensures RuleSpelled(Rule(hosts), hosts)
  {
    if |hosts| > 1 {
      var first := "Host(`" + hosts[0] + "`) || ";
      assert Rule(hosts) == first + Rule(hosts[1..]);
      assert Rule(hosts)[|first|..] == Rule(hosts[1..]);
      RuleIsSpelled(hosts[1..]);
    } else if |hosts| == 1 {
      assert Rule(hosts[1..]) == "";
    }
  }

  lemma RouterIsSpelled(prefix: string, k: RouteKey)
    ensures RouterSpelled(RouterName(prefix, k), prefix, k)
  {
    var text := prefix + "-" + ServiceName(k) + "-" + PortSuffix(k);
    assert IsSanitized(Sanitize(text), text);
  }

  lemma ResolverIsOvh(base: string, input: Input, i: nat)
    requires i < |input.groups|
    ensures var name := LabelName(RouterOf(input, i), CertResolver);
            name in AllLabels(base, input) ==> AllLabels(base, input)[name] == "ovh"
  {
    var name := LabelName(RouterOf(input, i), CertResolver);
    NotABaseLabel(RouterOf(input, i), CertResolver, input);
    if name in AllLabels(base, input) {
      var j, k := PutAllFrom(BaseLabels(input), Steps(base, input), name);
      var g := input.groups[j];
      RouterHasNoDot(input.routerPrefix, input.groups[i].key);
      RouterHasNoDot(input.routerPrefix, g.key);
      NamesResolver(RouterOf(input, i), RouterOf(input, j), StepOf(base, input, j).writes[k].slot);
      ResolverWrites(Rule(g.hosts), EntryPoint(g.key), NeedsOwnCertificate(g.hosts, base), Decimal(input.priority),
                     RouterName(input.routerPrefix, g.key), Decimal(g.key.port), k);
    }
  }

  lemma ResolverWrites(rule: string, entry: string, own: bool, priority: string, router: string, port: string, k: nat)
    requires var w := WritesOf(rule, entry, own, priority, router, port); k < |w| && w[k].slot == CertResolver
    ensures WritesOf(rule, entry, own, priority, router, port)[k].value == "ovh"
  {
  }

  /** For the last group of each router, all its labels; and those of the container. */
  lemma LabelsAreSpelled(base: string, input: Input, i: nat)
    requires i < |input.groups|
    requires forall j :: i < j < |input.groups| ==> RouterOf(input, i) != RouterOf(input, j)
    ensures RouterSpelled(RouterOf(input, i), input.routerPrefix, input.groups[i].key)
    ensures GroupSpelled(AllLabels(base, input), RouterOf(input, i), input.groups[i], input.priority)
  {
    var r, g := RouterOf(input, i), input.groups[i];
    LastOfRouterTells(base, input, i);
    RouterIsSpelled(input.routerPrefix, g.key);
    RuleIsSpelled(g.hosts);
    ResolverIsOvh(base, input, i);
  }

  lemma ContainerLabelsAreSpelled(base: string, input: Input)
    ensures Labelled(AllLabels(base, input), "traefik.enable", "true")
    ensures Labelled(AllLabels(base, input), "traefik.docker.network", input.network)
    ensures Labelled(AllLabels(base, input), "willy.deploymentId", input.deploymentId)
  {
    BaseLabelsSurvive(base, input, "traefik.enable");
    BaseLabelsSurvive(base, input, "traefik.docker.network");
    BaseLabelsSurvive(base, input, "willy.deploymentId");
  }
}
