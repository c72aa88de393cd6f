/**
 The durable log of one stream: a window of the last lines in memory, live listeners, and a file that is
 rewritten after a delay. Streams with different files share nothing.
 */
module LogStorage {
  import opened Options
  import opened Text

  const MAX_LINES := 2000

  type BufferId = nat
  type ListenerId = nat

  /** How much of the stream there was: lines appended and ends announced. */
  datatype Mark = Mark(lines: nat, ends: nat)

  /** A buffer. What the program does not keep: every line it ever got, and what there was of the stream when it was
      made and when the stream forgot it. */
  datatype LogBuffer = LogBuffer(
    lines: seq<string>, onLine: seq<ListenerId>, onDone: seq<ListenerId>, done: bool, timer: bool,
    all: seq<string>, made: Mark, left: Option<Mark>)

  /** A registration for lines: since which line of the stream, until which if it was removed, and what it got. */
  datatype LineListener = LineListener(buffer: BufferId, since: nat, until: Option<nat>, got: seq<string>)

  /** A registration for the end, and how many ends there had been. */
  datatype DoneListener = DoneListener(buffer: BufferId, since: nat, cancelled: bool, calls: nat)

  /** A flush: the content is taken once the directory is there. */
  datatype Flush = Flush(buffer: BufferId, content: Option<string>)

  /** The stream. Buffers stay referenced by their timers when the stream forgets them, so the heap keeps all.
      `stream` and `ends` are its history: every line, and the number of ends. `kept` is what earlier processes had to
      keep last. */
  datatype State = State(
    current: Option<BufferId>, heap: seq<LogBuffer>,
    lineListeners: seq<LineListener>, doneListeners: seq<DoneListener>,
    flushes: seq<Flush>, file: Option<string>, evictions: nat,
    stream: seq<string>, ends: nat, kept: Option<seq<string>>)

  datatype Event =
    | Append(line: string)
    | Finish
    | OnLine
    | OffLine(l: ListenerId)
    | OnDone
    | OffDone(l: ListenerId)
    | Fire(b: BufferId) // the flush timer
    | Mkdir(k: nat)
    | Write
    | FlushFails(k: nat)
    | Evict
    | Restart

  function NewBuffer(made: Mark): LogBuffer {
    LogBuffer([], [], [], false, false, [], made, None)
  }

  function Now(s: State): Mark { Mark(|s.stream|, s.ends) }

  /** The buffer has something to keep: a line or an end came while it was in memory. */
  predicate Touched(b: LogBuffer) { b.done || b.all != [] }

  /** The last buffer with something to keep, in memory or forgotten. */
  function LastTouched(heap: seq<LogBuffer>): (t: Option<BufferId>)
    ensures t.Some? ==> t.value < |heap| && Touched(heap[t.value])
    ensures forall b :: 0 <= b < |heap| && (t.Some? ==> t.value < b) ==> !Touched(heap[b])
  {
    if heap == [] then None
    else
      var n := |heap| - 1;
      if Touched(heap[n]) then Some(n) else LastTouched(heap[..n])
  }

  function LinesOf(file: Option<string>): Option<seq<string>> {
    if file.None? then None else Some(Split(file.value, '\n'))
  }

  /** The lines that the stream has to keep: those of its last touched buffer, of this process or an earlier one. */
  function Kept(s: State): Option<seq<string>> {
    if LastTouched(s.heap).Some? then Some(s.heap[LastTouched(s.heap).value].lines) else s.kept
  }

  // ---------- What each step does ----------

  function Push(lines: seq<string>, line: string): seq<string> {
    var longer := lines + [line];
    if |longer| > MAX_LINES then longer[1..] else longer
  }

  /** The last lines, as many as are kept. */
  function Window(all: seq<string>): seq<string> {
    if |all| <= MAX_LINES then all else all[|all| - MAX_LINES..]
  }

  /** The line handed to each registration of the list, in order. */
  function Deliver(listeners: seq<LineListener>, ids: seq<ListenerId>, line: string): (r: seq<LineListener>)
    requires forall i :: 0 <= i < |ids| ==> ids[i] < |listeners|
    ensures |r| == |listeners| && forall l :: 0 <= l < |r| ==> r[l].buffer == listeners[l].buffer
  {
    if ids == [] then listeners
    else
      var before := Deliver(listeners, ids[..|ids| - 1], line);
      var l := ids[|ids| - 1];
      before[l := before[l].(got := before[l].got + [line])]
  }

  function CallDone(listeners: seq<DoneListener>, ids: seq<ListenerId>): (r: seq<DoneListener>)
    requires forall i :: 0 <= i < |ids| ==> ids[i] < |listeners|
    ensures |r| == |listeners|
    ensures forall l :: 0 <= l < |r| ==> r[l].buffer == listeners[l].buffer && r[l].since == listeners[l].since
  {
    if ids == [] then listeners
    else
      var before := CallDone(listeners, ids[..|ids| - 1]);
      var l := ids[|ids| - 1];
      before[l := before[l].(calls := before[l].calls + 1)]
  }

  function Without(ids: seq<ListenerId>, l: ListenerId): (r: seq<ListenerId>)
    ensures forall x :: x in r <==> x in ids && x != l
    ensures forall i :: 0 <= i < |r| ==> r[i] in ids
    ensures NoDuplicates(ids) ==> NoDuplicates(r)
  {
    if ids == [] then []
    else
      var rest := Without(ids[1..], l);
      assert ids == [ids[0]] + ids[1..];
      assert NoDuplicates(ids) ==> ids[0] !in ids[1..] && NoDuplicates(ids[1..]);
      if ids[0] == l then rest else [ids[0]] + rest
  }

  predicate NoDuplicates(ids: seq<ListenerId>) {
    forall i, j :: 0 <= i < j < |ids| ==> ids[i] != ids[j]
  }

  /** The stream with a buffer in memory. */
  ghost function Ensured(s: State): (r: State)
    requires WellFormed(s)
    ensures WellFormed(r) && r.current.Some?
  {
    if s.current.Some? then s else s.(current := Some(|s.heap|), heap := s.heap + [NewBuffer(Now(s))])
  }

  ghost predicate WellFormed(s: State) {
    && (s.current.Some? ==> s.current.value + 1 == |s.heap|)
    && Registered(s.heap, |s.lineListeners|, |s.doneListeners|)
    && (forall l <- s.lineListeners :: l.buffer < |s.heap|)
    && (forall l <- s.doneListeners :: l.buffer < |s.heap|)
    && (forall f <- s.flushes :: f.buffer < |s.heap|)
  }

  ghost predicate Registered(heap: seq<LogBuffer>, lines: nat, dones: nat) {
    forall b :: 0 <= b < |heap| ==>
      && (forall i :: 0 <= i < |heap[b].onLine| ==> heap[b].onLine[i] < lines)
      && (forall i :: 0 <= i < |heap[b].onDone| ==> heap[b].onDone[i] < dones)
  }

  ghost function Appended(s: State, b: BufferId, line: string): (r: State)
    requires WellFormed(s) && b < |s.heap|
    ensures WellFormed(r)
  {
    var buffer := s.heap[b];
    s.(heap := s.heap[b := buffer.(lines := Push(buffer.lines, line), all := buffer.all + [line], timer := true)],
       lineListeners := Deliver(s.lineListeners, buffer.onLine, line),
       stream := s.stream + [line])
  }

  ghost function Finished(s: State, b: BufferId): (r: State)
    requires WellFormed(s) && b < |s.heap|
    ensures WellFormed(r)
  {
    s.(heap := s.heap[b := s.heap[b].(done := true, onDone := [])],
       doneListeners := CallDone(s.doneListeners, s.heap[b].onDone),
       flushes := s.flushes + [Flush(b, None)],
       evictions := s.evictions + 1,
       ends := s.ends + 1)
  }

  ghost function LineAttached(s: State, b: BufferId): (r: State)
    requires WellFormed(s) && b < |s.heap|
    ensures WellFormed(r)
  {
    var l := |s.lineListeners|;
    s.(heap := s.heap[b := s.heap[b].(onLine := s.heap[b].onLine + [l])],
       lineListeners := s.lineListeners + [LineListener(b, |s.stream|, None, [])])
  }

  ghost function DoneAttached(s: State, b: BufferId): (r: State)
    requires WellFormed(s) && b < |s.heap|
    ensures WellFormed(r)
  {
    var l := |s.doneListeners|;
    if s.heap[b].done then s.(doneListeners := s.doneListeners + [DoneListener(b, s.ends, false, 1)])
    else
      s.(heap := s.heap[b := s.heap[b].(onDone := s.heap[b].onDone + [l])],
         doneListeners := s.doneListeners + [DoneListener(b, s.ends, false, 0)])
  }

  ghost function LineDetached(s: State, l: ListenerId): (r: State)
    requires WellFormed(s) && l < |s.lineListeners|
    ensures WellFormed(r)
  {
    var b := s.lineListeners[l].buffer;
    if s.lineListeners[l].until.Some? then s
    else
      s.(heap := s.heap[b := s.heap[b].(onLine := Without(s.heap[b].onLine, l))],
         lineListeners := s.lineListeners[l := s.lineListeners[l].(until := Some(|s.stream|))])
  }

  ghost function DoneDetached(s: State, l: ListenerId): (r: State)
    requires WellFormed(s) && l < |s.doneListeners|
    ensures WellFormed(r)
  {
    var b := s.doneListeners[l].buffer;
    s.(heap := s.heap[b := s.heap[b].(onDone := Without(s.heap[b].onDone, l))],
       doneListeners := s.doneListeners[l := s.doneListeners[l].(cancelled := true)])
  }

  ghost function Captured(s: State, k: nat): (r: State)
    requires WellFormed(s) && k < |s.flushes|
    ensures WellFormed(r)
  {
    var content := Join(s.heap[s.flushes[k].buffer].lines, '\n');
    s.(flushes := s.flushes[k := s.flushes[k].(content := Some(content))])
  }

  ghost function Forgotten(s: State): (r: State)
    requires WellFormed(s)
    ensures WellFormed(r)
  {
    if s.current.None? then s
    else
      var b := s.current.value;
      s.(current := None, heap := s.heap[b := s.heap[b].(left := Some(Now(s)))])
  }

  ghost function Flushing(s: State, b: BufferId): (r: State)
    requires WellFormed(s) && b < |s.heap|
    ensures WellFormed(r)
  {
    s.(heap := s.heap[b := s.heap[b].(timer := false)], flushes := s.flushes + [Flush(b, None)])
  }

  ghost function Failing(s: State, k: nat): (r: State)
    requires WellFormed(s) && k < |s.flushes|
    ensures WellFormed(r)
  {
    s.(flushes := s.flushes[..k] + s.flushes[k + 1..])
  }

  ghost function Restarted(s: State): (r: State)
    ensures WellFormed(r)
  {
    Start(s.file).(stream := s.stream, ends := s.ends, kept := Kept(s))
  }

  /** Directories are made, and files written, in the order of the flushes. */
  ghost predicate Enabled(s: State, e: Event) {
    match e
    case Append(_) | Finish | OnLine | OnDone | Restart => true
    case OffLine(l) => l < |s.lineListeners|
    case OffDone(l) => l < |s.doneListeners|
    case Fire(b) => b < |s.heap| && s.heap[b].timer
    case Mkdir(k) => k < |s.flushes| && s.flushes[k].content.None? && AllCaptured(s.flushes[..k])
    case Write => s.flushes != [] && s.flushes[0].content.Some?
    case FlushFails(k) => k < |s.flushes|
    case Evict => s.evictions > 0
  }

  ghost predicate AllCaptured(flushes: seq<Flush>) {
    forall k :: 0 <= k < |flushes| ==> flushes[k].content.Some?
  }

  ghost function Next(s: State, e: Event): (r: State)
    requires WellFormed(s) && Enabled(s, e)
    ensures WellFormed(r)
  {
    match e
    case Append(line) => Appended(Ensured(s), Ensured(s).current.value, line)
    case Finish => Finished(Ensured(s), Ensured(s).current.value)
    case OnLine => LineAttached(Ensured(s), Ensured(s).current.value)
    case OnDone => DoneAttached(Ensured(s), Ensured(s).current.value)
    case OffLine(l) => LineDetached(s, l)
    case OffDone(l) => DoneDetached(s, l)
    case Fire(b) => Flushing(s, b)
    case Mkdir(k) => Captured(s, k)
    case Write => s.(file := s.flushes[0].content, flushes := s.flushes[1..])
    case FlushFails(k) => Failing(s, k)
    case Evict => Forgotten(s).(evictions := s.evictions - 1)
    case Restart => Restarted(s)
  }

  function ReadPersisted(file: Option<string>): seq<string> {
    if file.None? then [] else NonEmpty(Split(file.value, '\n'))
  }

  function NonEmpty(lines: seq<string>): seq<string> {
    if lines == [] then [] else (if |lines[0]| > 0 then [lines[0]] else []) + NonEmpty(lines[1..])
  }

  function History(s: State): seq<string>
    requires s.current.Some? ==> s.current.value < |s.heap|
  {
    if s.current.Some? then s.heap[s.current.value].lines else ReadPersisted(s.file)
  }

  // ---------- The service, for one stream ----------

  class LogStream {
    var current: Option<BufferId>
    var heap: seq<LogBuffer>
    var lineListeners: seq<LineListener>
    var doneListeners: seq<DoneListener>
    var flushes: seq<Flush>
    var file: Option<string>
    var evictions: nat
    var stream: seq<string>
    var ends: nat
    var kept: Option<seq<string>>

    ghost function View(): State
      reads this
    {
      State(current, heap, lineListeners, doneListeners, flushes, file, evictions, stream, ends, kept)
    }

    ghost predicate Valid()
      reads this
    {
      WellFormed(View())
    }

    /** A process that starts: nothing in memory, the file as it was left. */
    constructor (file: Option<string>)
      ensures Valid() && View() == Start(file)
    {
      current, heap, lineListeners, doneListeners := None, [], [], [];
      flushes, this.file, evictions, stream, ends, kept := [], file, 0, [], 0, LinesOf(file);
    }

    method EnsureBuffer() returns (b: BufferId)
      requires Valid()
      modifies this`current, this`heap
      ensures Valid() && View() == Ensured(old(View())) && current == Some(b)
    {
      if current.None? {
        current := Some(|heap|);
        heap := heap + [NewBuffer(Mark(|stream|, ends))];
      }
      b := current.value;
    }

    method EmitLine(ids: seq<ListenerId>, line: string)
      requires forall i :: 0 <= i < |ids| ==> ids[i] < |lineListeners|
      modifies this`lineListeners
      ensures lineListeners == Deliver(old(lineListeners), ids, line)
    {
      for i := 0 to |ids|
        invariant lineListeners == Deliver(old(lineListeners), ids[..i], line)
      {
        assert ids[..i + 1][..i] == ids[..i];
        var l := ids[i];
        lineListeners := lineListeners[l := lineListeners[l].(got := lineListeners[l].got + [line])];
      }
      assert ids[..|ids|] == ids;
    }

    method EmitDone(ids: seq<ListenerId>)
      requires forall i :: 0 <= i < |ids| ==> ids[i] < |doneListeners|
      modifies this`doneListeners
      ensures doneListeners == CallDone(old(doneListeners), ids)
    {
      for i := 0 to |ids|
        invariant doneListeners == CallDone(old(doneListeners), ids[..i])
      {
        assert ids[..i + 1][..i] == ids[..i];
        var l := ids[i];
        doneListeners := doneListeners[l := doneListeners[l].(calls := doneListeners[l].calls + 1)];
      }
      assert ids[..|ids|] == ids;
    }

    method Append(line: string)
      requires Valid()
      modifies this
      ensures Valid() && View() == Next(old(View()), Event.Append(line))
    {
      var b := EnsureBuffer();
      var buffer := heap[b];
      var lines := buffer.lines + [line];
      if |lines| > MAX_LINES {
        lines := lines[1..];
      }
      EmitLine(buffer.onLine, line);
      heap := heap[b := buffer.(lines := lines, all := buffer.all + [line], timer := true)];
      stream := stream + [line];
    }

    method Finish()
      requires Valid()
      modifies this
      ensures Valid() && View() == Next(old(View()), Event.Finish)
    {
      var b := EnsureBuffer();
      ghost var ensured := View();
      var buffer := heap[b];
      EmitDone(buffer.onDone);
      heap := heap[b := buffer.(done := true, onDone := [])];
      flushes := flushes + [Flush(b, None)];
      evictions := evictions + 1;
      ends := ends + 1;
      assert View() == Finished(ensured, b);
    }

    method OnLine() returns (l: ListenerId)
      requires Valid()
      modifies this
      ensures Valid() && View() == Next(old(View()), Event.OnLine) && l == |old(lineListeners)|
    {
      var b := EnsureBuffer();
      l := |lineListeners|;
      lineListeners := lineListeners + [LineListener(b, |stream|, None, [])];
      heap := heap[b := heap[b].(onLine := heap[b].onLine + [l])];
    }

    method OnDone() returns (l: ListenerId)
      requires Valid()
      modifies this
      ensures Valid() && View() == Next(old(View()), Event.OnDone) && l == |old(doneListeners)|
    {
      var b := EnsureBuffer();
      l := |doneListeners|;
      if heap[b].done {
        doneListeners := doneListeners + [DoneListener(b, ends, false, 1)];
        return;
      }
      doneListeners := doneListeners + [DoneListener(b, ends, false, 0)];
      heap := heap[b := heap[b].(onDone := heap[b].onDone + [l])];
    }

    method GetHistory() returns (lines: seq<string>)
      requires Valid()
      ensures lines == History(View())
    {
      if current.Some? {
        return heap[current.value].lines;
      }
      if file.None? {
        return [];
      }
      lines := NonEmpty(Split(file.value, '\n'));
    }

    method FlushTimer(b: BufferId)
      requires Valid() && Enabled(View(), Fire(b))
      modifies this`heap, this`flushes
      ensures Valid() && View() == Next(old(View()), Fire(b))
    {
      heap := heap[b := heap[b].(timer := false)];
      flushes := flushes + [Flush(b, None)];
    }
  }

  // ---------- Runs ----------

  function Start(file: Option<string>): State {
    State(None, [], [], [], [], file, 0, [], 0, LinesOf(file))
  }

  ghost predicate Legal(s: State, run: seq<Event>)
    requires WellFormed(s)
    decreases |run|
  {
    run == [] || (Enabled(s, run[0]) && Legal(Next(s, run[0]), run[1..]))
  }

  ghost function Exec(s: State, run: seq<Event>): (r: State)
    requires WellFormed(s) && Legal(s, run)
    ensures WellFormed(r)
    decreases |run|
  {
    if run == [] then s else Exec(Next(s, run[0]), run[1..])
  }

  // ---------- Windows ----------

  ghost predicate WindowInv(heap: seq<LogBuffer>) {
    forall b :: 0 <= b < |heap| ==> heap[b].lines == Window(heap[b].all)
  }

  lemma PushKeepsWindow(all: seq<string>, line: string)
    ensures Push(Window(all), line) == Window(all + [line])
  {
  }

  // ---------- Buffers in the stream ----------

  /** How far in the stream the lines of the buffer reach. */
  function Reach(b: LogBuffer): nat { b.made.lines + |b.all| }

  /** A buffer has a stretch of the stream, from when it was made to now or to when it was forgotten; it is done exactly
      when the stream ended in that time. */
  ghost predicate BufferFits(b: LogBuffer, inMemory: bool, stream: seq<string>, ends: nat) {
    && Reach(b) <= |stream| && b.all == stream[b.made.lines..Reach(b)]
    && (b.left.None? <==> inMemory)
    && var now := if b.left.Some? then b.left.value else Mark(|stream|, ends);
       && now.lines == Reach(b) && b.made.ends <= now.ends <= ends
       && (b.done <==> b.made.ends < now.ends)
  }

  /** A done listener came while its buffer was in memory. */
  ghost predicate SinceInv(heap: seq<LogBuffer>, listeners: seq<DoneListener>, ends: nat) {
    forall l :: 0 <= l < |listeners| ==> SinceFits(heap, listeners[l], ends)
  }

  ghost predicate SinceFits(heap: seq<LogBuffer>, l: DoneListener, ends: nat) {
    && l.buffer < |heap|
    && heap[l.buffer].made.ends <= l.since <= if heap[l.buffer].left.Some? then heap[l.buffer].left.value.ends else ends
  }

  ghost predicate StreamInv(s: State) {
    forall b :: 0 <= b < |s.heap| ==> BufferFits(s.heap[b], s.current == Some(b), s.stream, s.ends)
  }

  // ---------- Listeners ----------

  function Min(a: nat, b: nat): nat { if a < b then a else b }

  /** The position in the stream up to which the listener is registered. */
  function RegisteredUntil(stream: seq<string>, l: LineListener): nat {
    if l.until.Some? then l.until.value else |stream|
  }

  function GotUntil(heap: seq<LogBuffer>, stream: seq<string>, l: LineListener): nat
    requires l.buffer < |heap|
  {
    Min(RegisteredUntil(stream, l), Reach(heap[l.buffer]))
  }

  ghost predicate LineGot(heap: seq<LogBuffer>, stream: seq<string>, l: LineListener) {
    && l.buffer < |heap| && Reach(heap[l.buffer]) <= |stream|
    && l.since <= GotUntil(heap, stream, l) && RegisteredUntil(stream, l) <= |stream|
    && l.got == stream[l.since..GotUntil(heap, stream, l)]
  }

  ghost predicate LineListed(heap: seq<LogBuffer>, listeners: seq<LineListener>, b: BufferId)
    requires b < |heap|
  {
    && NoDuplicates(heap[b].onLine)
    && forall l :: l in heap[b].onLine <==> 0 <= l < |listeners| && listeners[l].buffer == b && listeners[l].until.None?
  }

  ghost predicate LineInv(heap: seq<LogBuffer>, stream: seq<string>, listeners: seq<LineListener>) {
    && (forall l :: 0 <= l < |listeners| ==> LineGot(heap, stream, listeners[l]))
    && (forall b :: 0 <= b < |heap| ==> LineListed(heap, listeners, b))
  }

  /** Each registration gets the line once, and the others nothing. */
  lemma {:induction false} DeliverOnce(listeners: seq<LineListener>, ids: seq<ListenerId>, line: string, l: ListenerId)
    requires forall i :: 0 <= i < |ids| ==> ids[i] < |listeners|
    requires NoDuplicates(ids) && l < |listeners|
    ensures Deliver(listeners, ids, line)[l]
            == if l in ids then listeners[l].(got := listeners[l].got + [line]) else listeners[l]
  {
    if ids != [] {
      var init, last := ids[..|ids| - 1], ids[|ids| - 1];
      DeliverOnce(listeners, init, line, l);
      assert ids == init + [last];
      assert last !in init;
    }
  }

  // ---------- The end of the stream ----------

  /** A registration that was not cancelled is called exactly when the buffer is done, and none twice. */
  ghost predicate DoneCalled(heap: seq<LogBuffer>, l: DoneListener) {
    && l.buffer < |heap| && l.calls <= 1
    && (!l.cancelled ==> (l.calls == 1 <==> heap[l.buffer].done))
  }

  ghost predicate DoneListed(heap: seq<LogBuffer>, listeners: seq<DoneListener>, b: BufferId)
    requires b < |heap|
  {
    && NoDuplicates(heap[b].onDone)
    && (heap[b].done ==> heap[b].onDone == [])
    && forall l :: l in heap[b].onDone <==>
                   0 <= l < |listeners| && listeners[l].buffer == b && !listeners[l].cancelled && listeners[l].calls == 0
  }

  ghost predicate DoneInv(heap: seq<LogBuffer>, listeners: seq<DoneListener>) {
    && (forall l :: 0 <= l < |listeners| ==> DoneCalled(heap, listeners[l]))
    && (forall b :: 0 <= b < |heap| ==> DoneListed(heap, listeners, b))
  }

  lemma {:induction false} CallDoneOnce(listeners: seq<DoneListener>, ids: seq<ListenerId>, l: ListenerId)
    requires forall i :: 0 <= i < |ids| ==> ids[i] < |listeners|
    requires NoDuplicates(ids) && l < |listeners|
    ensures CallDone(listeners, ids)[l]
            == if l in ids then listeners[l].(calls := listeners[l].calls + 1) else listeners[l]
  {
    if ids != [] {
      var init, last := ids[..|ids| - 1], ids[|ids| - 1];
      CallDoneOnce(listeners, init, l);
      assert ids == init + [last];
      assert last !in init;
    }
  }

  // ---------- Every run ----------

  ghost predicate Inv(s: State) {
    WellFormed(s) && WindowInv(s.heap) && StreamInv(s) && SinceInv(s.heap, s.doneListeners, s.ends)
    && LineInv(s.heap, s.stream, s.lineListeners) && DoneInv(s.heap, s.doneListeners)
  }

  lemma InvFromParts(s: State)
    requires WindowInv(s.heap) && StreamInv(s) && SinceInv(s.heap, s.doneListeners, s.ends)
    requires LineInv(s.heap, s.stream, s.lineListeners) && DoneInv(s.heap, s.doneListeners)
    requires s.current.Some? ==> s.current.value + 1 == |s.heap|
    requires forall f <- s.flushes :: f.buffer < |s.heap|
    ensures Inv(s)
  {
    forall b | 0 <= b < |s.heap|
      ensures forall i :: 0 <= i < |s.heap[b].onLine| ==> s.heap[b].onLine[i] < |s.lineListeners|
      ensures forall i :: 0 <= i < |s.heap[b].onDone| ==> s.heap[b].onDone[i] < |s.doneListeners|
    {
      assert LineListed(s.heap, s.lineListeners, b) && DoneListed(s.heap, s.doneListeners, b);
      assert forall i :: 0 <= i < |s.heap[b].onLine| ==> s.heap[b].onLine[i] in s.heap[b].onLine;
      assert forall i :: 0 <= i < |s.heap[b].onDone| ==> s.heap[b].onDone[i] in s.heap[b].onDone;
    }
    assert forall l :: 0 <= l < |s.lineListeners| ==> LineGot(s.heap, s.stream, s.lineListeners[l]);
    assert forall l :: 0 <= l < |s.doneListeners| ==> DoneCalled(s.heap, s.doneListeners[l]);
  }

  /** A step that leaves the lines and their listeners alone. */
  lemma LineFrame(heap: seq<LogBuffer>, stream: seq<string>, after: seq<LogBuffer>, listeners: seq<LineListener>)
    requires LineInv(heap, stream, listeners) && |after| == |heap|
    requires forall b :: 0 <= b < |heap| ==> Reach(after[b]) == Reach(heap[b]) && after[b].onLine == heap[b].onLine
    ensures LineInv(after, stream, listeners)
  {
    forall l | 0 <= l < |listeners| ensures LineGot(after, stream, listeners[l]) {
      assert LineGot(heap, stream, listeners[l]);
    }
    forall b | 0 <= b < |after| ensures LineListed(after, listeners, b) {
      assert LineListed(heap, listeners, b);
    }
  }

  /** A step that leaves the ends of the buffers and their listeners alone. */
  lemma DoneFrame(heap: seq<LogBuffer>, after: seq<LogBuffer>, listeners: seq<DoneListener>)
    requires DoneInv(heap, listeners) && |after| == |heap|
    requires forall b :: 0 <= b < |heap| ==> after[b].done == heap[b].done && after[b].onDone == heap[b].onDone
    ensures DoneInv(after, listeners)
  {
    forall l | 0 <= l < |listeners| ensures DoneCalled(after, listeners[l]) {
      assert DoneCalled(heap, listeners[l]);
    }
    forall b | 0 <= b < |after| ensures DoneListed(after, listeners, b) {
      assert DoneListed(heap, listeners, b);
    }
  }

  lemma NewBufferKeepsLine(heap: seq<LogBuffer>, stream: seq<string>, listeners: seq<LineListener>, made: Mark)
    requires LineInv(heap, stream, listeners)
    ensures LineInv(heap + [NewBuffer(made)], stream, listeners)
  {
    var after := heap + [NewBuffer(made)];
    forall l | 0 <= l < |listeners| ensures LineGot(after, stream, listeners[l]) {
      assert LineGot(heap, stream, listeners[l]);
    }
    forall b | 0 <= b < |after| ensures LineListed(after, listeners, b) {
      assert b < |heap| ==> LineListed(heap, listeners, b);
    }
  }

  lemma NewBufferKeepsDone(heap: seq<LogBuffer>, listeners: seq<DoneListener>, made: Mark)
    requires DoneInv(heap, listeners)
    ensures DoneInv(heap + [NewBuffer(made)], listeners)
  {
    var after := heap + [NewBuffer(made)];
    forall l | 0 <= l < |listeners| ensures DoneCalled(after, listeners[l]) {
      assert DoneCalled(heap, listeners[l]);
    }
    forall b | 0 <= b < |after| ensures DoneListed(after, listeners, b) {
      assert b < |heap| ==> DoneListed(heap, listeners, b);
    }
  }

  lemma EnsuredKeepsInv(s: State)
    requires Inv(s)
    ensures Inv(Ensured(s))
  {
    NewBufferKeepsLine(s.heap, s.stream, s.lineListeners, Now(s));
    NewBufferKeepsDone(s.heap, s.doneListeners, Now(s));
    SinceFrame(s.heap, s.doneListeners, s.ends, Ensured(s).heap, s.doneListeners, s.ends);
    EnsuredKeepsStream(s);
  }

  /** A step that leaves alone since when listeners are there, and what was when the buffers were made and left. */
  lemma SinceFrame(heap: seq<LogBuffer>, listeners: seq<DoneListener>, ends: nat,
                   heap': seq<LogBuffer>, listeners': seq<DoneListener>, ends': nat)
    requires SinceInv(heap, listeners, ends) && |heap| <= |heap'| && |listeners| == |listeners'| && ends <= ends'
    requires forall b :: 0 <= b < |heap| ==> heap'[b].made == heap[b].made && heap'[b].left == heap[b].left
    requires forall l :: 0 <= l < |listeners| ==>
               listeners'[l].buffer == listeners[l].buffer && listeners'[l].since == listeners[l].since
    ensures SinceInv(heap', listeners', ends')
  {
    forall l | 0 <= l < |listeners'| ensures SinceFits(heap', listeners'[l], ends') {
      assert SinceFits(heap, listeners[l], ends);
    }
  }

  lemma EnsuredKeepsStream(s: State)
    requires WellFormed(s) && StreamInv(s)
    ensures StreamInv(Ensured(s))
  {
    forall b | 0 <= b < |Ensured(s).heap|
      ensures BufferFits(Ensured(s).heap[b], Ensured(s).current == Some(b), s.stream, s.ends)
    {
      assert b < |s.heap| ==> BufferFits(s.heap[b], s.current == Some(b), s.stream, s.ends);
    }
  }

  lemma LineAfterAppend(heap: seq<LogBuffer>, stream: seq<string>, listeners: seq<LineListener>, b: BufferId,
                        line: string, heap': seq<LogBuffer>, listeners': seq<LineListener>)
    requires LineInv(heap, stream, listeners) && b < |heap| && Reach(heap[b]) == |stream|
    requires |heap'| == |heap| && Reach(heap'[b]) == Reach(heap[b]) + 1 && heap'[b].onLine == heap[b].onLine
    requires forall x :: 0 <= x < |heap| && x != b ==> heap'[x] == heap[x]
    requires |listeners'| == |listeners|
    requires forall l :: 0 <= l < |listeners| ==>
               listeners'[l] == if l in heap[b].onLine then listeners[l].(got := listeners[l].got + [line])
                                else listeners[l]
    ensures LineInv(heap', stream + [line], listeners')
  {
    assert LineListed(heap, listeners, b);
    forall l | 0 <= l < |listeners| ensures LineGot(heap', stream + [line], listeners'[l]) {
      assert LineGot(heap, stream, listeners[l]);
    }
    forall x | 0 <= x < |heap| ensures LineListed(heap', listeners', x) {
      assert LineListed(heap, listeners, x);
    }
  }

  lemma AppendKeepsLine(s: State, b: BufferId, line: string)
    requires WellFormed(s) && b < |s.heap|
    requires LineInv(s.heap, s.stream, s.lineListeners) && Reach(s.heap[b]) == |s.stream|
    ensures LineInv(Appended(s, b, line).heap, Appended(s, b, line).stream, Appended(s, b, line).lineListeners)
  {
    var t, ids := Appended(s, b, line), s.heap[b].onLine;
    assert LineListed(s.heap, s.lineListeners, b);
    forall l | 0 <= l < |s.lineListeners|
      ensures t.lineListeners[l] == (if l in ids then s.lineListeners[l].(got := s.lineListeners[l].got + [line])
                                     else s.lineListeners[l])
    {
      DeliverOnce(s.lineListeners, ids, line, l);
    }
    LineAfterAppend(s.heap, s.stream, s.lineListeners, b, line, t.heap, t.lineListeners);
  }

  lemma AppendKeepsStream(s: State, b: BufferId, line: string)
    requires WellFormed(s) && b < |s.heap|
    requires StreamInv(s) && s.current == Some(b)
    ensures StreamInv(Appended(s, b, line)) && Reach(s.heap[b]) == |s.stream|
  {
    var t := Appended(s, b, line);
    assert BufferFits(s.heap[b], true, s.stream, s.ends);
    forall x | 0 <= x < |t.heap| ensures BufferFits(t.heap[x], t.current == Some(x), t.stream, t.ends) {
      assert BufferFits(s.heap[x], s.current == Some(x), s.stream, s.ends);
    }
  }

  lemma AppendKeepsInv(s: State, b: BufferId, line: string)
    requires Inv(s) && s.current == Some(b)
    ensures Inv(Appended(s, b, line))
  {
    var t := Appended(s, b, line);
    SinceFrame(s.heap, s.doneListeners, s.ends, t.heap, t.doneListeners, t.ends);
    AppendKeepsStream(s, b, line);
    AppendKeepsLine(s, b, line);
    DoneFrame(s.heap, Appended(s, b, line).heap, s.doneListeners);
    PushKeepsWindow(s.heap[b].all, line);
    InvFromParts(Appended(s, b, line));
  }

  lemma FinishKeepsDone(s: State, b: BufferId)
    requires WellFormed(s) && b < |s.heap|
    requires DoneInv(s.heap, s.doneListeners)
    ensures DoneInv(Finished(s, b).heap, Finished(s, b).doneListeners)
  {
    var t, ids := Finished(s, b), s.heap[b].onDone;
    assert DoneListed(s.heap, s.doneListeners, b);
    forall l: ListenerId | l < |s.doneListeners|
      ensures t.doneListeners[l] == (if l in ids then s.doneListeners[l].(calls := s.doneListeners[l].calls + 1)
                                     else s.doneListeners[l])
    {
      CallDoneOnce(s.doneListeners, ids, l);
    }
    forall l | 0 <= l < |t.doneListeners| ensures DoneCalled(t.heap, t.doneListeners[l]) {
      assert DoneCalled(s.heap, s.doneListeners[l]);
    }
    forall x | 0 <= x < |t.heap| ensures DoneListed(t.heap, t.doneListeners, x) {
      assert DoneListed(s.heap, s.doneListeners, x);
    }
  }

  lemma FinishKeepsStream(s: State, b: BufferId)
    requires WellFormed(s) && b < |s.heap|
    requires StreamInv(s) && s.current == Some(b)
    ensures StreamInv(Finished(s, b))
  {
    var t := Finished(s, b);
    forall x | 0 <= x < |t.heap| ensures BufferFits(t.heap[x], t.current == Some(x), t.stream, t.ends) {
      assert BufferFits(s.heap[x], s.current == Some(x), s.stream, s.ends);
    }
  }

  lemma FinishKeepsInv(s: State, b: BufferId)
    requires Inv(s) && s.current == Some(b)
    ensures Inv(Finished(s, b))
  {
    var t := Finished(s, b);
    SinceFrame(s.heap, s.doneListeners, s.ends, t.heap, t.doneListeners, t.ends);
    FinishKeepsStream(s, b);
    FinishKeepsDone(s, b);
    LineFrame(s.heap, s.stream, Finished(s, b).heap, s.lineListeners);
    InvFromParts(Finished(s, b));
  }

  lemma LineAfterAttach(heap: seq<LogBuffer>, stream: seq<string>, listeners: seq<LineListener>, b: BufferId,
                        heap': seq<LogBuffer>)
    requires LineInv(heap, stream, listeners) && b < |heap| && Reach(heap[b]) == |stream|
    requires heap' == heap[b := heap[b].(onLine := heap[b].onLine + [|listeners|])]
    ensures LineInv(heap', stream, listeners + [LineListener(b, |stream|, None, [])])
  {
    var listeners' := listeners + [LineListener(b, |stream|, None, [])];
    forall l | 0 <= l < |listeners'| ensures LineGot(heap', stream, listeners'[l]) {
      assert l < |listeners| ==> LineGot(heap, stream, listeners[l]);
    }
    forall x | 0 <= x < |heap'| ensures LineListed(heap', listeners', x) {
      assert LineListed(heap, listeners, x);
      assert |listeners| !in heap[x].onLine;
    }
  }

  lemma AttachLineKeepsLine(s: State, b: BufferId)
    requires WellFormed(s) && LineInv(s.heap, s.stream, s.lineListeners)
    requires b < |s.heap| && Reach(s.heap[b]) == |s.stream|
    ensures LineInv(LineAttached(s, b).heap, s.stream, LineAttached(s, b).lineListeners)
  {
    LineAfterAttach(s.heap, s.stream, s.lineListeners, b, LineAttached(s, b).heap);
  }

  lemma AttachDoneKeepsDone(s: State, b: BufferId)
    requires WellFormed(s) && DoneInv(s.heap, s.doneListeners) && b < |s.heap|
    ensures DoneInv(DoneAttached(s, b).heap, DoneAttached(s, b).doneListeners)
  {
    var t := DoneAttached(s, b);
    forall l | 0 <= l < |t.doneListeners| ensures DoneCalled(t.heap, t.doneListeners[l]) {
      assert l < |s.doneListeners| ==> DoneCalled(s.heap, s.doneListeners[l]);
    }
    forall x | 0 <= x < |t.heap| ensures DoneListed(t.heap, t.doneListeners, x) {
      assert DoneListed(s.heap, s.doneListeners, x);
      assert |s.doneListeners| !in s.heap[x].onDone;
    }
  }

  lemma DetachLineKeepsLine(s: State, l: ListenerId)
    requires WellFormed(s) && LineInv(s.heap, s.stream, s.lineListeners)
    requires l < |s.lineListeners| && s.lineListeners[l].buffer < |s.heap|
    ensures LineInv(LineDetached(s, l).heap, s.stream, LineDetached(s, l).lineListeners)
  {
    var t := LineDetached(s, l);
    forall x | 0 <= x < |t.lineListeners| ensures LineGot(t.heap, t.stream, t.lineListeners[x]) {
      assert LineGot(s.heap, s.stream, s.lineListeners[x]);
    }
    forall x | 0 <= x < |t.heap| ensures LineListed(t.heap, t.lineListeners, x) {
      assert LineListed(s.heap, s.lineListeners, x);
    }
  }

  lemma DetachDoneKeepsDone(s: State, l: ListenerId)
    requires WellFormed(s) && DoneInv(s.heap, s.doneListeners)
    requires l < |s.doneListeners| && s.doneListeners[l].buffer < |s.heap|
    ensures DoneInv(DoneDetached(s, l).heap, DoneDetached(s, l).doneListeners)
  {
    var t := DoneDetached(s, l);
    forall x | 0 <= x < |t.doneListeners| ensures DoneCalled(t.heap, t.doneListeners[x]) {
      assert DoneCalled(s.heap, s.doneListeners[x]);
    }
    forall x | 0 <= x < |t.heap| ensures DoneListed(t.heap, t.doneListeners, x) {
      assert DoneListed(s.heap, s.doneListeners, x);
    }
  }

  /** A step that leaves the stream and what the buffers have of it alone. */
  lemma StreamFrame(s: State, t: State)
    requires StreamInv(s) && t.stream == s.stream && t.ends == s.ends && t.current == s.current && |t.heap| == |s.heap|
    requires forall b :: 0 <= b < |s.heap| ==>
               && t.heap[b].all == s.heap[b].all && t.heap[b].done == s.heap[b].done
               && t.heap[b].made == s.heap[b].made && t.heap[b].left == s.heap[b].left
    ensures StreamInv(t)
  {
    forall b | 0 <= b < |t.heap| ensures BufferFits(t.heap[b], t.current == Some(b), t.stream, t.ends) {
      assert BufferFits(s.heap[b], s.current == Some(b), s.stream, s.ends);
    }
  }

  lemma AttachLineKeepsInv(s: State, b: BufferId)
    requires Inv(s) && s.current == Some(b)
    ensures Inv(LineAttached(s, b))
  {
    var t := LineAttached(s, b);
    SinceFrame(s.heap, s.doneListeners, s.ends, t.heap, t.doneListeners, t.ends);
    assert BufferFits(s.heap[b], true, s.stream, s.ends);
    StreamFrame(s, LineAttached(s, b));
    AttachLineKeepsLine(s, b);
    DoneFrame(s.heap, LineAttached(s, b).heap, s.doneListeners);
    InvFromParts(LineAttached(s, b));
  }

  lemma AttachDoneKeepsSince(s: State, b: BufferId)
    requires WellFormed(s) && SinceInv(s.heap, s.doneListeners, s.ends) && b < |s.heap|
    requires BufferFits(s.heap[b], true, s.stream, s.ends)
    ensures SinceInv(DoneAttached(s, b).heap, DoneAttached(s, b).doneListeners, s.ends)
  {
    var t := DoneAttached(s, b);
    forall l | 0 <= l < |t.doneListeners| ensures SinceFits(t.heap, t.doneListeners[l], s.ends) {
      assert l < |s.doneListeners| ==> SinceFits(s.heap, s.doneListeners[l], s.ends);
    }
  }

  lemma AttachDoneKeepsInv(s: State, b: BufferId)
    requires Inv(s) && s.current == Some(b)
    ensures Inv(DoneAttached(s, b))
  {
    assert BufferFits(s.heap[b], true, s.stream, s.ends);
    AttachDoneKeepsSince(s, b);
    StreamFrame(s, DoneAttached(s, b));
    AttachDoneKeepsDone(s, b);
    LineFrame(s.heap, s.stream, DoneAttached(s, b).heap, s.lineListeners);
    InvFromParts(DoneAttached(s, b));
  }

  lemma DetachLineKeepsInv(s: State, l: ListenerId)
    requires Inv(s)
    requires l < |s.lineListeners| && s.lineListeners[l].buffer < |s.heap|
    ensures Inv(LineDetached(s, l))
  {
    var t := LineDetached(s, l);
    SinceFrame(s.heap, s.doneListeners, s.ends, t.heap, t.doneListeners, t.ends);
    StreamFrame(s, LineDetached(s, l));
    DetachLineKeepsLine(s, l);
    DoneFrame(s.heap, LineDetached(s, l).heap, s.doneListeners);
    InvFromParts(LineDetached(s, l));
  }

  lemma DetachDoneKeepsInv(s: State, l: ListenerId)
    requires Inv(s)
    requires l < |s.doneListeners| && s.doneListeners[l].buffer < |s.heap|
    ensures Inv(DoneDetached(s, l))
  {
    var t := DoneDetached(s, l);
    SinceFrame(s.heap, s.doneListeners, s.ends, t.heap, t.doneListeners, t.ends);
    StreamFrame(s, DoneDetached(s, l));
    DetachDoneKeepsDone(s, l);
    LineFrame(s.heap, s.stream, DoneDetached(s, l).heap, s.lineListeners);
    InvFromParts(DoneDetached(s, l));
  }

  /** A step that leaves the stream, the listeners and what the buffers hold alone. */
  lemma OtherKeepsInv(s: State, t: State)
    requires Inv(s) && |t.heap| == |s.heap|
    requires forall b :: 0 <= b < |s.heap| ==> t.heap[b] == s.heap[b].(timer := t.heap[b].timer)
    requires t.lineListeners == s.lineListeners && t.doneListeners == s.doneListeners
    requires t.current == s.current && t.stream == s.stream && t.ends == s.ends
    requires forall f <- t.flushes :: f.buffer < |s.heap|
    ensures Inv(t)
  {
    SinceFrame(s.heap, s.doneListeners, s.ends, t.heap, t.doneListeners, t.ends);
    StreamFrame(s, t);
    LineFrame(s.heap, s.stream, t.heap, s.lineListeners);
    DoneFrame(s.heap, t.heap, s.doneListeners);
    InvFromParts(t);
  }

  lemma ForgettingKeepsInv(s: State)
    requires Inv(s)
    ensures Inv(Forgotten(s))
  {
    var t := Forgotten(s);
    forall b | 0 <= b < |t.heap| ensures BufferFits(t.heap[b], t.current == Some(b), t.stream, t.ends) {
      assert BufferFits(s.heap[b], s.current == Some(b), s.stream, s.ends);
    }
    forall l | 0 <= l < |s.doneListeners| ensures SinceFits(t.heap, s.doneListeners[l], s.ends) {
      assert SinceFits(s.heap, s.doneListeners[l], s.ends);
      assert BufferFits(s.heap[s.doneListeners[l].buffer], s.current == Some(s.doneListeners[l].buffer), s.stream, s.ends);
    }
    LineFrame(s.heap, s.stream, t.heap, s.lineListeners);
    DoneFrame(s.heap, t.heap, s.doneListeners);
    InvFromParts(t);
  }

  lemma StepKeepsInv(s: State, e: Event)
    requires Inv(s) && Enabled(s, e)
    ensures Inv(Next(s, e))
  {
    match e
    case Append(line) => EnsuredKeepsInv(s); AppendKeepsInv(Ensured(s), Ensured(s).current.value, line);
    case Finish => EnsuredKeepsInv(s); FinishKeepsInv(Ensured(s), Ensured(s).current.value);
    case OnLine => EnsuredKeepsInv(s); AttachLineKeepsInv(Ensured(s), Ensured(s).current.value);
    case OnDone => EnsuredKeepsInv(s); AttachDoneKeepsInv(Ensured(s), Ensured(s).current.value);
    case OffLine(l) => DetachLineKeepsInv(s, l);
    case OffDone(l) => DetachDoneKeepsInv(s, l);
    case Fire(_) | Mkdir(_) | Write | FlushFails(_) => OtherKeepsInv(s, Next(s, e));
    case Evict => ForgettingKeepsInv(s); OtherKeepsInv(Forgotten(s), Next(s, e));
    case Restart =>
  }

  lemma {:induction false} RunKeepsInv(s: State, run: seq<Event>)
    requires Inv(s) && Legal(s, run)
    ensures Inv(Exec(s, run))
    decreases |run|
  {
    if run != [] {
      StepKeepsInv(s, run[0]);
      RunKeepsInv(Next(s, run[0]), run[1..]);
    }
  }

  /** The evictions that are due: one for each end since the last restart, less those that came. */
  function Owed(before: int, run: seq<Event>): int
    decreases |run|
  {
    if run == [] then before
    else
      Owed(match run[0] case Finish => before + 1 case Evict => before - 1 case Restart => 0 case _ => before, run[1..])
  }

  lemma {:induction false} RunOwesEvictions(s: State, run: seq<Event>)
    requires WellFormed(s) && Legal(s, run)
    ensures Exec(s, run).evictions == Owed(s.evictions, run)
    decreases |run|
  {
    if run != [] { RunOwesEvictions(Next(s, run[0]), run[1..]); }
  }

  /** In every run, each end of the stream evicts a buffer once. */
  lemma EndsEvictOnce(file: Option<string>, run: seq<Event>)
    requires Legal(Start(file), run)
    ensures Exec(Start(file), run).evictions == Owed(0, run)
  {
    RunOwesEvictions(Start(file), run);
  }

  /** In every run, each buffer holds exactly the last 2000 of the lines appended to it, or all of them. */
  lemma BufferIsWindow(file: Option<string>, run: seq<Event>, b: BufferId)
    requires Legal(Start(file), run) && b < |Exec(Start(file), run).heap|
    ensures var buffer := Exec(Start(file), run).heap[b];
            && |buffer.lines| == (if |buffer.all| < 2000 then |buffer.all| else 2000)
            && buffer.lines == buffer.all[|buffer.all| - |buffer.lines|..]
  {
    RunKeepsInv(Start(file), run);
    WindowOf(Exec(Start(file), run), b);
  }

  lemma WindowOf(s: State, b: BufferId)
    requires Inv(s) && b < |s.heap|
    ensures var buffer := s.heap[b];
            && buffer.lines == Window(buffer.all)
            && |buffer.lines| == (if |buffer.all| < 2000 then |buffer.all| else 2000)
            && buffer.lines == buffer.all[|buffer.all| - |buffer.lines|..]
  {
    WindowMeans(s.heap[b].all);
  }

  lemma WindowMeans(all: seq<string>)
    ensures |Window(all)| == if |all| < MAX_LINES then |all| else MAX_LINES
    ensures Window(all) == all[|all| - |Window(all)|..]
  {
  }

  /** In every run, a listener has got, once and in order, the lines of the stream from its registration to its removal
      or to when the stream forgot its buffer. That is every line it was registered for exactly when no line was
      appended in between. */
  lemma ListenersGetLines(file: Option<string>, run: seq<Event>, l: ListenerId)
    requires Legal(Start(file), run) && l < |Exec(Start(file), run).lineListeners|
    ensures var s := Exec(Start(file), run);
            var listener := s.lineListeners[l];
            var until := RegisteredUntil(s.stream, listener);
            && listener.buffer < |s.heap| && listener.since <= until <= |s.stream|
            && listener.got <= s.stream[listener.since..until]
            && var left := s.heap[listener.buffer].left;
               && (left.Some? ==> listener.since <= left.value.lines <= |s.stream|)
               && (left.Some? && left.value.lines < until ==> listener.got == s.stream[listener.since..left.value.lines])
               && (listener.got == s.stream[listener.since..until] <==> left.None? || until <= left.value.lines)
  {
    RunKeepsInv(Start(file), run);
    var s := Exec(Start(file), run);
    LineListenerFits(s, l);
    GotMeans(s.heap, s.stream, s.ends, s.current == Some(s.lineListeners[l].buffer), s.lineListeners[l]);
  }

  lemma GotMeans(heap: seq<LogBuffer>, stream: seq<string>, ends: nat, inMemory: bool, l: LineListener)
    requires LineGot(heap, stream, l) && BufferFits(heap[l.buffer], inMemory, stream, ends)
    ensures var until, left := RegisteredUntil(stream, l), heap[l.buffer].left;
            && l.since <= until <= |stream| && l.got <= stream[l.since..until]
            && (left.Some? ==> l.since <= left.value.lines <= |stream|)
            && (left.Some? && left.value.lines < until ==> l.got == stream[l.since..left.value.lines])
            && (l.got == stream[l.since..until] <==> left.None? || until <= left.value.lines)
  {
  }

  lemma LineListenerFits(s: State, l: ListenerId)
    requires Inv(s) && l < |s.lineListeners|
    ensures var listener := s.lineListeners[l];
            && LineGot(s.heap, s.stream, listener)
            && BufferFits(s.heap[listener.buffer], s.current == Some(listener.buffer), s.stream, s.ends)
  {
    assert LineGot(s.heap, s.stream, s.lineListeners[l]);
  }

  /** In every run, a done listener is called at most once. Unless it was removed, it is called exactly when the stream
      ended while its buffer was in memory; and it misses an end that came after its registration exactly when the
      stream forgot the buffer before it ended, and ended afterwards. */
  lemma DoneIsCalledOnce(file: Option<string>, run: seq<Event>, l: ListenerId)
    requires Legal(Start(file), run) && l < |Exec(Start(file), run).doneListeners|
    ensures var s := Exec(Start(file), run);
            var listener := s.doneListeners[l];
            && listener.buffer < |s.heap| && listener.calls <= 1 && listener.since <= s.ends
            && var buffer := s.heap[listener.buffer];
               var ends := if buffer.left.Some? then buffer.left.value.ends else s.ends;
               && buffer.made.ends <= listener.since <= ends
               && (!listener.cancelled ==> (listener.calls == 1 <==> buffer.made.ends < ends))
               && (!listener.cancelled ==>
                     (listener.calls == 0 && listener.since < s.ends <==>
                        buffer.made.ends == ends && buffer.left.Some? && ends < s.ends))
  {
    RunKeepsInv(Start(file), run);
    DoneListenerFits(Exec(Start(file), run), l);
  }

  lemma DoneListenerFits(s: State, l: ListenerId)
    requires Inv(s) && l < |s.doneListeners|
    ensures var listener := s.doneListeners[l];
            && DoneCalled(s.heap, listener) && SinceFits(s.heap, listener, s.ends)
            && BufferFits(s.heap[listener.buffer], s.current == Some(listener.buffer), s.stream, s.ends)
  {
    assert DoneCalled(s.heap, s.doneListeners[l]);
  }

  lemma Prepend(s: State, e: Event, run: seq<Event>)
    requires WellFormed(s) && Enabled(s, e) && Legal(Next(s, e), run)
    ensures Legal(s, [e] + run) && Exec(s, [e] + run) == Exec(Next(s, e), run)
  {
    assert ([e] + run)[1..] == run;
  }

  // ---------- Runs without failures and late evictions ----------

  /** Writes succeed, no buffer is evicted while its timer runs (500 ms against 5 minutes after the end of the stream,
      unless lines are still appended to an ended stream), and the process restarts only when no flush is due. */
  ghost predicate Benign(s: State, e: Event) {
    && !e.FlushFails?
    && (e.Evict? && s.current.Some? && s.current.value < |s.heap| ==> !s.heap[s.current.value].timer)
    && (e.Restart? ==> s.flushes == [] && forall b :: 0 <= b < |s.heap| ==> !s.heap[b].timer)
  }

  ghost predicate BenignRun(s: State, run: seq<Event>)
    requires WellFormed(s) && Legal(s, run)
    decreases |run|
  {
    run == [] || (Benign(s, run[0]) && BenignRun(Next(s, run[0]), run[1..]))
  }

  // ---------- Runs that lose a line or an end for a listener ----------

  /** The stream with one new buffer. */
  function OneBuffer(b: LogBuffer): State {
    State(Some(0), [b], [], [], [], None, 0, b.all, 0, None)
  }

  lemma FirstBuffer()
    ensures Ensured(Start(None)) == OneBuffer(NewBuffer(Mark(0, 0)))
  {
    assert Start(None).heap + [NewBuffer(Mark(0, 0))] == [NewBuffer(Mark(0, 0))];
  }

  ghost predicate BenignStep(s: State, e: Event, t: State) {
    WellFormed(s) && WellFormed(t) && Enabled(s, e) && Benign(s, e) && Next(s, e) == t
  }

  lemma PrependBenign(s: State, e: Event, t: State, run: seq<Event>)
    requires BenignStep(s, e, t) && Legal(t, run) && BenignRun(t, run)
    ensures Legal(s, [e] + run) && Exec(s, [e] + run) == Exec(t, run) && BenignRun(s, [e] + run)
  {
    assert ([e] + run)[1..] == run;
  }

  /** A listener for lines that came first and has got nothing; no lines, one buffer, and no timer. */
  ghost predicate Listens(s: State, current: Option<BufferId>) {
    && WellFormed(s) && s.current == current && |s.heap| == 1 && !s.heap[0].timer && s.stream == []
    && s.lineListeners == [LineListener(0, 0, None, [])]
  }

  lemma FirstListens()
    ensures Listens(Next(Start(None), Event.OnLine), Some(0))
  {
    FirstBuffer();
    assert [] + [LineListener(0, 0, None, [])] == [LineListener(0, 0, None, [])];
  }

  lemma MissesAppend(s: State, line: string) returns (run: seq<Event>)
    requires WellFormed(s) && s.current.None?
    ensures run == [Event.Append(line)] && Legal(s, run) && BenignRun(s, run)
    ensures Exec(s, run).lineListeners == s.lineListeners && Exec(s, run).stream == s.stream + [line]
  {
    var t := Next(s, Event.Append(line));
    assert Deliver(s.lineListeners, [], line) == s.lineListeners;
    PrependBenign(s, Event.Append(line), t, []);
    run := [Event.Append(line)] + [];
  }

  lemma MissesAfterEviction(s: State) returns (run: seq<Event>)
    requires Listens(s, Some(0)) && s.evictions > 0
    ensures run == [Evict, Event.Append("x")] && Legal(s, run) && BenignRun(s, run)
    ensures Exec(s, run).lineListeners == s.lineListeners && Exec(s, run).stream == ["x"]
  {
    var t := Next(s, Evict);
    var rest := MissesAppend(t, "x");
    PrependBenign(s, Evict, t, rest);
    run := [Evict] + rest;
  }

  lemma MissesAfterEnd(s: State) returns (run: seq<Event>)
    requires Listens(s, Some(0))
    ensures run == [Event.Finish, Evict, Event.Append("x")] && Legal(s, run) && BenignRun(s, run)
    ensures Exec(s, run).lineListeners == s.lineListeners && Exec(s, run).stream == ["x"]
  {
    var t := Next(s, Event.Finish);
    var rest := MissesAfterEviction(t);
    PrependBenign(s, Event.Finish, t, rest);
    run := [Event.Finish] + rest;
  }

  /** From the start, and benign: a listener that is there all along misses a line after the eviction. */
  lemma LostLineRun() returns (run: seq<Event>)
    ensures run == [Event.OnLine, Event.Finish, Evict, Event.Append("x")]
    ensures Legal(Start(None), run) && BenignRun(Start(None), run)
    ensures var t := Exec(Start(None), run);
            && |t.lineListeners| == 1 && t.lineListeners[0].until.None? && t.lineListeners[0].since == 0
            && t.stream == ["x"] && t.lineListeners[0].got == []
  {
    FirstListens();
    var t := Next(Start(None), Event.OnLine);
    var rest := MissesAfterEnd(t);
    PrependBenign(Start(None), Event.OnLine, t, rest);
    run := [Event.OnLine] + rest;
  }

  /** Ends and evictions so far, and done listeners, of a stream in which nothing else happened. */
  ghost predicate Ends(s: State, current: Option<BufferId>, ends: nat, evictions: nat, listeners: seq<DoneListener>) {
    && WellFormed(s) && s.current == current && s.ends == ends && s.evictions == evictions
    && s.doneListeners == listeners
    && forall b :: 0 <= b < |s.heap| ==> !s.heap[b].timer
  }

  lemma MissesEnd(s: State, ends: nat, listeners: seq<DoneListener>) returns (run: seq<Event>)
    requires Ends(s, None, ends, 0, listeners)
    ensures run == [Event.Finish] && Legal(s, run) && BenignRun(s, run)
    ensures Exec(s, run).ends == ends + 1 && Exec(s, run).doneListeners == listeners
  {
    var t := Next(s, Event.Finish);
    PrependBenign(s, Event.Finish, t, []);
    run := [Event.Finish] + [];
  }

  lemma MissesEndAfterEviction(s: State, b: BufferId, ends: nat, listeners: seq<DoneListener>) returns (run: seq<Event>)
    requires Ends(s, Some(b), ends, 1, listeners)
    ensures run == [Evict, Event.Finish] && Legal(s, run) && BenignRun(s, run)
    ensures Exec(s, run).ends == ends + 1 && Exec(s, run).doneListeners == listeners
  {
    var t := Next(s, Evict);
    var rest := MissesEnd(t, ends, listeners);
    PrependBenign(s, Evict, t, rest);
    run := [Evict] + rest;
  }

  lemma ComesAnew(s: State, ends: nat) returns (run: seq<Event>)
    requires Ends(s, None, ends, 1, [])
    ensures run == [Event.OnDone, Evict, Event.Finish] && Legal(s, run) && BenignRun(s, run)
    ensures Exec(s, run).ends == ends + 1
    ensures Exec(s, run).doneListeners == [DoneListener(|s.heap|, ends, false, 0)]
  {
    var t, listeners := Next(s, Event.OnDone), [DoneListener(|s.heap|, ends, false, 0)];
    assert s.doneListeners + listeners == listeners;
    var rest := MissesEndAfterEviction(t, |s.heap|, ends, listeners);
    PrependBenign(s, Event.OnDone, t, rest);
    run := [Event.OnDone] + rest;
  }

  lemma EvictedOnce(s: State, b: BufferId, ends: nat) returns (run: seq<Event>)
    requires Ends(s, Some(b), ends, 2, [])
    ensures run == [Evict, Event.OnDone, Evict, Event.Finish] && Legal(s, run) && BenignRun(s, run)
    ensures Exec(s, run).ends == ends + 1
    ensures Exec(s, run).doneListeners == [DoneListener(|s.heap|, ends, false, 0)]
  {
    var t := Next(s, Evict);
    var rest := ComesAnew(t, ends);
    PrependBenign(s, Evict, t, rest);
    run := [Evict] + rest;
  }

  lemma EndsAgain(s: State, b: BufferId, ends: nat) returns (run: seq<Event>)
    requires Ends(s, Some(b), ends, 1, []) && s.heap[b].onDone == []
    ensures run == [Event.Finish, Evict, Event.OnDone, Evict, Event.Finish] && Legal(s, run) && BenignRun(s, run)
    ensures Exec(s, run).ends == ends + 2
    ensures Exec(s, run).doneListeners == [DoneListener(|s.heap|, ends + 1, false, 0)]
  {
    var t := Next(s, Event.Finish);
    var rest := EvictedOnce(t, b, ends + 1);
    PrependBenign(s, Event.Finish, t, rest);
    run := [Event.Finish] + rest;
  }

  lemma FirstEnds()
    ensures var t := Next(Start(None), Event.Finish);
            Ends(t, Some(0), 1, 1, []) && |t.heap| == 1 && t.heap[0].onDone == []
  {
    FirstBuffer();
    OneEnds(OneBuffer(NewBuffer(Mark(0, 0))));
  }

  lemma OneEnds(s: State)
    requires Ends(s, Some(0), 0, 0, []) && |s.heap| == 1 && s.heap[0].onDone == []
    ensures Ends(Finished(s, 0), Some(0), 1, 1, []) && |Finished(s, 0).heap| == 1 && Finished(s, 0).heap[0].onDone == []
  {
  }

  /** From the start, and benign: two ends of the stream evict twice, and the second takes away a buffer that has not
      ended, with a listener that then misses the third end. */
  lemma LostEndRun() returns (run: seq<Event>)
    ensures run == [Event.Finish, Event.Finish, Evict, Event.OnDone, Evict, Event.Finish]
    ensures Legal(Start(None), run) && BenignRun(Start(None), run)
    ensures var t := Exec(Start(None), run);
            && |t.doneListeners| == 1 && !t.doneListeners[0].cancelled && t.doneListeners[0].calls == 0
            && t.doneListeners[0].since == 2 && t.ends == 3
  {
    FirstEnds();
    var t := Next(Start(None), Event.Finish);
    var rest := EndsAgain(t, 0, 1);
    PrependBenign(Start(None), Event.Finish, t, rest);
    run := [Event.Finish] + rest;
  }
}
