/**
 Hard-bound host ports: the provisioned capacity, the active range set by an admin, and the bindings.
 */
module Ports {
  import opened Options
  import opened Text

  datatype PortRange = PortRange(start: int, end: int)

  const MIN_BINDABLE_PORT := 1024
  const MAX_PORT := 65535

  // ---------- The provisioned capacity ----------

  datatype Parsed = Unprovisioned | Provisioned(range: PortRange) | Malformed

  predicate Bindable(r: PortRange) {
    MIN_BINDABLE_PORT <= r.start <= r.end <= MAX_PORT
  }

  function ParsePortRange(value: Option<string>): Parsed {
    if value.None? || Trim(value.value) == "" then Unprovisioned
    else
      var parts := Split(Trim(value.value), '-');
      if |parts| != 2 || parts[0] == "" || parts[1] == "" || !AllDigits(parts[0]) || !AllDigits(parts[1]) then Malformed
      else
        var start, end := Value(parts[0]), Value(parts[1]);
        if start > end || start < MIN_BINDABLE_PORT || end > MAX_PORT then Malformed
        else Provisioned(PortRange(start, end))
  }

  /** Digits, a hyphen, digits. */
  predicate Denotes(t: string, a: string, b: string, r: PortRange) {
    && a != "" && b != "" && AllDigits(a) && AllDigits(b)
    && t == a + "-" + b && Value(a) == r.start && Value(b) == r.end
  }

  /** What is accepted, exactly: text that denotes a range inside 1024..65535, between white space. */
  lemma ParseAccepts(text: string, r: PortRange)
    ensures ParsePortRange(Some(text)) == Provisioned(r) <==>
            Bindable(r) && exists a: string, b: string :: Denotes(Trim(text), a, b, r)
  {
    var t := Trim(text);
    if ParsePortRange(Some(text)) == Provisioned(r) {
      var parts := Split(t, '-');
      JoinOfSplit(t, '-');
      assert Denotes(t, parts[0], parts[1], r);
    }
    if Bindable(r) && exists a: string, b: string :: Denotes(t, a, b, r) {
      var a: string, b: string :| Denotes(t, a, b, r);
      SplitAtFirst(a, '-', b);
      SplitOfNone(b, '-');
    }
  }

  /** No text, or nothing but white space, is no range; and whatever else denotes none is refused. */
  lemma ParseRefuses(value: Option<string>)
    ensures ParsePortRange(value).Unprovisioned? <==> value.None? || AllSpace(value.value)
    ensures ParsePortRange(value).Malformed? <==>
            && value.Some? && !AllSpace(value.value)
            && forall r: PortRange, a: string, b: string :: Bindable(r) ==> !Denotes(Trim(value.value), a, b, r)
  {
    if value.Some? {
      var parsed := ParsePortRange(value);
      BlankIff(value.value);
      if parsed.Provisioned? { ParseAccepts(value.value, parsed.range); }
      forall r: PortRange, a: string, b: string | Bindable(r) && Denotes(Trim(value.value), a, b, r)
        ensures parsed.Provisioned?
      {
        ParseAccepts(value.value, r);
      }
    }
  }

  lemma BlankIff(text: string)
    ensures Trim(text) == "" <==> AllSpace(text)
  {
    TrimExact(text, "");
    if AllSpace(text) { assert text == text + ("" + ""); }
  }

  function Render(r: PortRange): string
    requires Bindable(r)
  {
    Decimal(r.start) + "-" + Decimal(r.end)
  }

  lemma ParseUndoesRender(r: PortRange)
    requires Bindable(r)
    ensures ParsePortRange(Some(Render(r))) == Provisioned(r)
  {
    var a, b := Decimal(r.start), Decimal(r.end);
    assert Render(r)[0] == a[0] && Render(r)[|Render(r)| - 1] == b[|b| - 1];
    assert Trim(Render(r)) == a + "-" + b;
    ValueOfDecimal(r.start);
    ValueOfDecimal(r.end);
    assert Denotes(Trim(Render(r)), a, b, r);
    ParseAccepts(Render(r), r);
  }

  predicate RangeContains(outer: PortRange, inner: PortRange) {
    inner.start >= outer.start && inner.end <= outer.end
  }

  // ---------- Settings ----------

  datatype PortSetting = PortSetting(enabled: bool, start: int, end: int)

  datatype PortPatch = PortPatch(enabled: Option<bool>, start: Option<int>, end: Option<int>)

  /** The stored setting over the defaults: off, and the full capacity. */
  function Effective(stored: Option<PortSetting>, capacity: Option<PortRange>): PortSetting {
    match stored
    case Some(setting) => setting
    case None =>
      if capacity.Some? then PortSetting(false, capacity.value.start, capacity.value.end) else PortSetting(false, 0, 0)
  }

  function Merged(current: PortSetting, patch: PortPatch): PortSetting {
    PortSetting(if patch.enabled.Some? then patch.enabled.value else current.enabled,
                if patch.start.Some? then patch.start.value else current.start,
                if patch.end.Some? then patch.end.value else current.end)
  }

  datatype SettingError = NotProvisioned | Reversed | OutsideCapacity

  function SettingFailure(setting: PortSetting, capacity: Option<PortRange>): Option<SettingError> {
    if setting.enabled && capacity.None? then Some(NotProvisioned)
    else if setting.start > setting.end then Some(Reversed)
    else if capacity.Some? && !RangeContains(capacity.value, PortRange(setting.start, setting.end)) then
      Some(OutsideCapacity)
    else None
  }

  class SettingsService {
    const capacity: Option<PortRange>
    var showAll: Option<bool>
    var portSetting: Option<PortSetting>

    constructor (capacity: Option<PortRange>)
      ensures this.capacity == capacity && showAll == None && portSetting == None
    {
      this.capacity := capacity;
      showAll, portSetting := None, None;
    }

    /** Nothing is written unless everything in the patch is valid. */
    method Update(newShowAll: Option<bool>, patch: Option<PortPatch>) returns (error: Option<SettingError>)
      modifies this
      ensures var merged := if patch.None? then None
                            else Some(Merged(Effective(old(portSetting), capacity), patch.value));
              && error == (if merged.None? then None else SettingFailure(merged.value, capacity))
              && portSetting == (if merged.None? || error.Some? then old(portSetting) else merged)
              && showAll == (if newShowAll.None? || error.Some? then old(showAll) else newShowAll)
    {
      error := None;
      var write := portSetting;
      if patch.Some? {
        var merged := Merged(Effective(portSetting, capacity), patch.value);
        error := SettingFailure(merged, capacity);
        if error.Some? { return; }
        write := Some(merged);
      }
      if newShowAll.Some? { showAll := newShowAll; }
      portSetting := write;
    }
  }

  // ---------- Bindings ----------

  type BindingId = nat

  datatype Binding = Binding(domain: string, hostPort: int)

  type Bindings = map<BindingId, Binding>

  predicate Bound(bindings: Bindings, port: int) {
    exists b <- bindings :: bindings[b].hostPort == port
  }

  /** The UNIQUE constraint on the host port, for a row that is written as `id`. */
  predicate Clashes(bindings: Bindings, port: int, id: BindingId) {
    exists b <- bindings :: bindings[b].hostPort == port && b != id
  }

  datatype BindError = Conflict | Missing

  class PortBindingsService {
    var bindings: Bindings
    var nextId: BindingId

    ghost predicate Valid()
      reads this
    {
      && (forall b <- bindings :: b < nextId)
      && PortsDistinct(bindings)
    }

    constructor ()
      ensures Valid() && bindings == map[]
    {
      bindings, nextId := map[], 0;
    }

    /** The least free port of the range; none exactly when every port of it is bound. */
    method SuggestFreePort(range: PortRange) returns (port: Option<int>)
      ensures port.Some? ==> range.start <= port.value <= range.end && !Bound(bindings, port.value)
      ensures port.Some? ==> forall p :: range.start <= p < port.value ==> Bound(bindings, p)
      ensures port.None? ==> forall p :: range.start <= p <= range.end ==> Bound(bindings, p)
    {
      var p := range.start;
      while p <= range.end
        invariant forall q :: range.start <= q < p ==> Bound(bindings, q)
        decreases range.end - p
      {
        if !Bound(bindings, p) {
          return Some(p);
        }
        p := p + 1;
      }
      port := None;
    }

    method AddPortBinding(domain: string, port: int) returns (r: Option<BindingId>)
      requires Valid()
      modifies this
      ensures Valid()
      ensures r.None? <==> Bound(old(bindings), port)
      ensures r.Some? ==> r.value == old(nextId) && r.value !in old(bindings) && r.value in bindings
      ensures bindings == Written(old(bindings), NewBinding(domain, port), old(nextId))
      ensures bindings == if r.None? then old(bindings) else old(bindings)[r.value := Binding(domain, port)]
    {
      if Bound(bindings, port) {
        return None;
      }
      bindings := bindings[nextId := Binding(domain, port)];
      r := Some(nextId);
      nextId := nextId + 1;
    }

    method UpdatePortBinding(domain: string, id: BindingId, port: int) returns (error: Option<BindError>)
      requires Valid()
      modifies this`bindings
      ensures Valid()
      ensures error == (if Clashes(old(bindings), port, id) then Some(Conflict)
                        else if id !in old(bindings) || old(bindings)[id].domain != domain then Some(Missing)
                        else None)
      ensures bindings == Written(old(bindings), Rebinding(domain, id, port), id)
      ensures error.None? ==> id in bindings && bindings[id] == Binding(domain, port)
    {
      if Clashes(bindings, port, id) {
        return Some(Conflict);
      }
      if id !in bindings || bindings[id].domain != domain {
        return Some(Missing);
      }
      bindings := bindings[id := Binding(domain, port)];
      error := None;
    }

    method RemovePortBinding(domain: string, id: BindingId)
      requires Valid()
      modifies this`bindings
      ensures Valid()
      ensures bindings == if id in old(bindings) && old(bindings)[id].domain == domain then old(bindings) - {id}
                          else old(bindings)
    {
      if id in bindings && bindings[id].domain == domain {
        bindings := bindings - {id};
      }
    }
  }

  // ---------- Room in the range ----------

  lemma {:induction false} Pigeonhole(bindings: Bindings, start: int, end: int)
    requires forall p :: start <= p <= end ==> Bound(bindings, p)
    ensures |bindings| >= end + 1 - start
    decreases end - start
  {
    if start <= end {
      assert Bound(bindings, end);
      var b :| b in bindings && bindings[b].hostPort == end;
      forall p | start <= p <= end - 1 ensures Bound(bindings - {b}, p) {
        assert Bound(bindings, p);
        var x :| x in bindings && bindings[x].hostPort == p;
        assert x in bindings - {b};
      }
      Pigeonhole(bindings - {b}, start, end - 1);
    }
  }

  /** With fewer bindings than ports in the range, some port of it is free. */
  lemma SomePortIsFree(bindings: Bindings, range: PortRange)
    requires |bindings| < range.end + 1 - range.start
    ensures exists p :: range.start <= p <= range.end && !Bound(bindings, p)
  {
    if forall p :: range.start <= p <= range.end ==> Bound(bindings, p) {
      Pigeonhole(bindings, range.start, range.end);
    }
  }

  // ---------- Requests and settings changes, interleaved ----------

  /** A request to bind a port, between its check of the active range and its write. */
  datatype Request = NewBinding(domain: string, port: int) | Rebinding(domain: string, id: BindingId, port: int)

  datatype State = State(
    capacity: Option<PortRange>,
    stored: Option<PortSetting>,
    pendingSettings: set<PortSetting>, // validated, not yet written
    pendingRequests: set<Request>,     // past the range check
    bindings: Bindings)

  datatype Event =
    | ReadSetting(patch: PortPatch)
    | WriteSetting(setting: PortSetting)
    | CheckRange(request: Request)
    | Insert(request: Request, id: BindingId)
    | Abandon(request: Request) // the pre-check found the port bound
    | Unbind(domain: string, id: BindingId)

  ghost predicate Enabled(s: State, e: Event) {
    match e
    case ReadSetting(patch) => SettingFailure(Merged(Effective(s.stored, s.capacity), patch), s.capacity).None?
    case WriteSetting(setting) => setting in s.pendingSettings
    case CheckRange(request) =>
      var active := Effective(s.stored, s.capacity);
      active.enabled && active.start <= request.port <= active.end
    case Insert(request, id) => request in s.pendingRequests && (request.NewBinding? ==> id !in s.bindings)
    case Abandon(request) => request in s.pendingRequests
    case Unbind(_, _) => true
  }

  /** The write of a request: refused by the database when another row has the port. */
  function Written(bindings: Bindings, request: Request, id: BindingId): Bindings {
    match request
    case NewBinding(domain, port) => if Bound(bindings, port) then bindings else bindings[id := Binding(domain, port)]
    case Rebinding(domain, at, port) =>
      if at !in bindings || bindings[at].domain != domain || Clashes(bindings, port, at) then bindings
      else bindings[at := Binding(domain, port)]
  }

  function Next(s: State, e: Event): State {
    match e
    case ReadSetting(patch) =>
      s.(pendingSettings := s.pendingSettings + {Merged(Effective(s.stored, s.capacity), patch)})
    case WriteSetting(setting) => s.(stored := Some(setting), pendingSettings := s.pendingSettings - {setting})
    case CheckRange(request) => s.(pendingRequests := s.pendingRequests + {request})
    case Insert(request, id) =>
      s.(bindings := Written(s.bindings, request, id), pendingRequests := s.pendingRequests - {request})
    case Abandon(request) => s.(pendingRequests := s.pendingRequests - {request})
    case Unbind(domain, id) =>
      if id in s.bindings && s.bindings[id].domain == domain then s.(bindings := s.bindings - {id}) else s
  }

  ghost predicate PortsDistinct(bindings: Bindings) {
    forall a, b :: a in bindings && b in bindings && a != b ==> bindings[a].hostPort != bindings[b].hostPort
  }

  predicate InCapacity(capacity: Option<PortRange>, port: int) {
    capacity.Some? && capacity.value.start <= port <= capacity.value.end
  }

  ghost predicate Inv(s: State) {
    && (s.stored.Some? ==> SettingFailure(s.stored.value, s.capacity).None?)
    && (forall x <- s.pendingSettings :: SettingFailure(x, s.capacity).None?)
    && (forall r <- s.pendingRequests :: InCapacity(s.capacity, r.port))
    && (forall b <- s.bindings :: InCapacity(s.capacity, s.bindings[b].hostPort))
    && PortsDistinct(s.bindings)
  }

  lemma StepKeepsInv(s: State, e: Event)
    requires Inv(s) && Enabled(s, e)
    ensures Inv(Next(s, e)) && Next(s, e).capacity == s.capacity
  {
  }

  ghost predicate Legal(s: State, run: seq<Event>)
    decreases |run|
  {
    run == [] || (Enabled(s, run[0]) && Legal(Next(s, run[0]), run[1..]))
  }

  ghost function Exec(s: State, run: seq<Event>): State
    requires Legal(s, run)
    decreases |run|
  {
    if run == [] then s else Exec(Next(s, run[0]), run[1..])
  }

  lemma {:induction false} RunKeepsInv(s: State, run: seq<Event>)
    requires Inv(s) && Legal(s, run)
    ensures Inv(Exec(s, run)) && Exec(s, run).capacity == s.capacity
    decreases |run|
  {
    if run != [] {
      StepKeepsInv(s, run[0]);
      RunKeepsInv(Next(s, run[0]), run[1..]);
    }
  }

  /** From the text of the configuration: in every run of requests and settings changes, even with a
      settings change between the range check of a request and its write, bound ports are pairwise
      distinct and inside the provisioned capacity, hence in 1024..65535; none without a capacity. */
  lemma BoundPortsAreProvisioned(config: Option<string>, run: seq<Event>, a: BindingId, b: BindingId)
    requires !ParsePortRange(config).Malformed?
    requires Legal(Start(config), run)
    requires a in Exec(Start(config), run).bindings && b in Exec(Start(config), run).bindings
    ensures var s := Exec(Start(config), run);
            && ParsePortRange(config).Provisioned?
            && ParsePortRange(config).range.start <= s.bindings[a].hostPort <= ParsePortRange(config).range.end
            && MIN_BINDABLE_PORT <= s.bindings[a].hostPort <= MAX_PORT
            && (a != b ==> s.bindings[a].hostPort != s.bindings[b].hostPort)
  {
    RunKeepsInv(Start(config), run);
  }

  function Start(config: Option<string>): State {
    var parsed := ParsePortRange(config);
    State(if parsed.Provisioned? then Some(parsed.range) else None, None, {}, {}, map[])
  }

  // ---------- Settings, written out ----------

  /** What a patch makes of a setting: each field that it has, and the others as they were. */
  ghost predicate Patched(before: PortSetting, patch: PortPatch, after: PortSetting) {
    && after.enabled == (match patch.enabled case Some(x) => x case None => before.enabled)
    && after.start == (match patch.start case Some(x) => x case None => before.start)
    && after.end == (match patch.end case Some(x) => x case None => before.end)
  }

  /** Without a stored setting binding is off, over the whole capacity. */
  ghost predicate InForce(stored: Option<PortSetting>, capacity: Option<PortRange>, setting: PortSetting) {
    match stored
    case Some(x) => setting == x
    case None =>
      !setting.enabled && match capacity
                          case None => setting.start == setting.end == 0
                          case Some(r) => setting.start == r.start && setting.end == r.end
  }

  lemma SettingsMean(stored: Option<PortSetting>, capacity: Option<PortRange>, patch: PortPatch)
    ensures InForce(stored, capacity, Effective(stored, capacity))
    ensures Patched(Effective(stored, capacity), patch, Merged(Effective(stored, capacity), patch))
  {
  }

  /** A setting is valid exactly when it is not reversed, inside the capacity if there is one, and off if there is none;
      and what is wrong is told in this order. */
  lemma SettingValidIff(setting: PortSetting, capacity: Option<PortRange>)
    ensures SettingFailure(setting, capacity).None? <==>
            && setting.start <= setting.end
            && match capacity
               case None => !setting.enabled
               case Some(r) => r.start <= setting.start && setting.end <= r.end
    ensures SettingFailure(setting, capacity) == Some(NotProvisioned) <==> setting.enabled && capacity.None?
    ensures SettingFailure(setting, capacity) == Some(Reversed) <==>
            setting.start > setting.end && !(setting.enabled && capacity.None?)
  {
  }

  /** The last setting that a run has written. */
  function LastWritten(stored: Option<PortSetting>, run: seq<Event>): Option<PortSetting>
    decreases |run|
  {
    if run == [] then stored
    else LastWritten(if run[0].WriteSetting? then Some(run[0].setting) else stored, run[1..])
  }

  /** At some check of the range in the run, the setting last written had the range on, with this port in it. */
  ghost predicate CheckedIn(stored: Option<PortSetting>, run: seq<Event>, port: int)
    decreases |run|
  {
    run != []
    && (|| (run[0].CheckRange? && run[0].request.port == port
            && stored.Some? && stored.value.enabled && stored.value.start <= port <= stored.value.end)
        || CheckedIn(if run[0].WriteSetting? then Some(run[0].setting) else stored, run[1..], port))
  }

  /** The ports of rows and of requests past their check. */
  ghost predicate PortsAmong(s: State, ports: set<int>) {
    && (forall b <- s.bindings :: s.bindings[b].hostPort in ports)
    && (forall r <- s.pendingRequests :: r.port in ports)
  }

  lemma StepAddsChecked(s: State, e: Event, ports: set<int>)
    requires Enabled(s, e) && PortsAmong(s, ports)
    ensures PortsAmong(Next(s, e), if e.CheckRange? then ports + {e.request.port} else ports)
    ensures e.CheckRange? ==> CheckedIn(s.stored, [e], e.request.port)
    ensures Next(s, e).stored == if e.WriteSetting? then Some(e.setting) else s.stored
  {
  }

  lemma {:induction false} RunChecked(s: State, run: seq<Event>, ports: set<int>)
    requires Legal(s, run) && PortsAmong(s, ports)
    ensures Exec(s, run).stored == LastWritten(s.stored, run)
    ensures forall b <- Exec(s, run).bindings ::
              Exec(s, run).bindings[b].hostPort in ports || CheckedIn(s.stored, run, Exec(s, run).bindings[b].hostPort)
    decreases |run|
  {
    if run != [] {
      var e := run[0];
      StepAddsChecked(s, e, ports);
      RunChecked(Next(s, e), run[1..], if e.CheckRange? then ports + {e.request.port} else ports);
    }
  }

  /** In every run the setting in force is the last one written, and a port is bound only if, when its request was
      checked, a setting that had been written had binding on with the port in its range. */
  lemma BoundPortsWereEnabled(config: Option<string>, run: seq<Event>, b: BindingId)
    requires Legal(Start(config), run)
    ensures Exec(Start(config), run).stored == LastWritten(None, run)
    ensures b in Exec(Start(config), run).bindings ==>
              CheckedIn(None, run, Exec(Start(config), run).bindings[b].hostPort)
  {
    RunChecked(Start(config), run, {});
  }

  /** What one step does to the rows, in full. */
  lemma RowsStep(s: State, e: Event, b: BindingId)
    requires Enabled(s, e) && PortsDistinct(s.bindings)
    ensures var was, after := s.bindings, Next(s, e).bindings;
            match e
            case Insert(NewBinding(domain, port), id) =>
              if b == id then
                if forall x <- was :: was[x].hostPort != port then b in after && after[b] == Binding(domain, port)
                else b !in after
              else (b in after <==> b in was) && (b in was ==> after[b] == was[b])
            case Insert(Rebinding(domain, id, port), _) =>
              (b in after <==> b in was)
              && (b in was ==>
                    after[b] == if b == id && was[b].domain == domain
                                   && (forall x <- was :: x != id ==> was[x].hostPort != port) then Binding(domain, port)
                                else was[b])
            case Unbind(domain, id) =>
              (b in after <==> b in was && !(b == id && was[b].domain == domain)) && (b in after ==> after[b] == was[b])
            case _ => after == was
  {
  }
}
