/**
 What becomes of the content of a log stream: which steps keep what it has to keep on its way to the file, and what
 a new viewer gets of it.
 */
module LogFile {
  import opened Options
  import opened Text
  import opened LogStorage

  // ---------- On its way to the file ----------

  function TextOf(b: LogBuffer): string { Join(b.lines, '\n') }

  /** What the file is to hold. */
  function Intended(s: State): Option<string> {
    if Kept(s).None? then None else Some(Join(Kept(s).value, '\n'))
  }

  /** What the file holds once the flushes have landed, with the buffers as they are. */
  function Landing(heap: seq<LogBuffer>, flushes: seq<Flush>, file: Option<string>): Option<string>
    requires forall f <- flushes :: f.buffer < |heap|
  {
    if flushes == [] then file
    else
      var last := flushes[|flushes| - 1];
      if last.content.Some? then last.content else Some(TextOf(heap[last.buffer]))
  }

  /** The timer of the buffer with the lines to keep is still to come. */
  predicate Pending(heap: seq<LogBuffer>) {
    LastTouched(heap).Some? && heap[LastTouched(heap).value].timer
  }

  /** Timers are those of touched buffers. */
  ghost predicate TimersTouched(heap: seq<LogBuffer>) {
    forall b :: 0 <= b < |heap| && heap[b].timer ==> Touched(heap[b])
  }

  /** The file comes to hold what it is to hold: by what is in progress, unless the timer is still to come. */
  ghost predicate Settles(s: State)
    requires WellFormed(s)
  {
    && TimersTouched(s.heap)
    && (Pending(s.heap) || Landing(s.heap, s.flushes, s.file) == Intended(s))
  }

  /** The steps that do not stand in the way. The timer of another buffer than the last touched one may fire only while
      the timer of that one is still to come, or with the same text; the last flush in progress may fail only if that
      timer is still to come or the file comes to hold the text without it; and the process may restart only when the
      file holds it. */
  ghost predicate Harmless(s: State, e: Event)
    requires WellFormed(s) && Enabled(s, e)
  {
    match e
    case Fire(b) => LastTouched(s.heap) == Some(b) || Pending(s.heap) || Some(TextOf(s.heap[b])) == Intended(s)
    case FlushFails(k) =>
      k < |s.flushes| - 1 || Pending(s.heap) || Landing(s.heap, s.flushes[..k], s.file) == Intended(s)
    case Restart => s.file == Intended(s)
    case _ => true
  }

  /** Heaps that agree on what matters here, but that the second may have one untouched buffer more. */
  ghost predicate Alike(heap: seq<LogBuffer>, after: seq<LogBuffer>) {
    && (|after| == |heap| || (|after| == |heap| + 1 && after[|heap|].lines == [] && !Touched(after[|heap|])
                              && !after[|heap|].timer))
    && forall b :: 0 <= b < |heap| ==>
         && after[b].lines == heap[b].lines && after[b].all == heap[b].all
         && after[b].done == heap[b].done && after[b].timer == heap[b].timer
  }

  lemma AlikeTouched(heap: seq<LogBuffer>, after: seq<LogBuffer>)
    requires Alike(heap, after)
    ensures LastTouched(after) == LastTouched(heap)
    ensures LastTouched(heap).Some? ==> after[LastTouched(heap).value].lines == heap[LastTouched(heap).value].lines
    ensures Pending(after) == Pending(heap)
    ensures TimersTouched(heap) ==> TimersTouched(after)
  {
  }

  /** What a registration leaves alone. */
  ghost predicate SameButAlike(s: State, t: State) {
    && t.flushes == s.flushes && t.file == s.file && t.kept == s.kept && t.stream == s.stream
    && Alike(s.heap, t.heap) && forall b :: 0 <= b < |s.heap| ==> t.heap[b].made == s.heap[b].made
  }

  lemma EnsuredIsAlike(s: State)
    requires WellFormed(s)
    ensures SameButAlike(s, Ensured(s))
  {
  }

  lemma AttachedIsAlike(s: State, b: BufferId)
    requires WellFormed(s) && b < |s.heap|
    ensures SameButAlike(s, LineAttached(s, b)) && SameButAlike(s, DoneAttached(s, b))
  {
  }

  lemma AttachingIsAlike(s: State, e: Event)
    requires WellFormed(s) && Enabled(s, e) && (e.OnLine? || e.OnDone?)
    ensures SameButAlike(s, Next(s, e))
  {
    EnsuredIsAlike(s);
    AttachedIsAlike(Ensured(s), Ensured(s).current.value);
  }

  lemma DetachingIsAlike(s: State, e: Event)
    requires WellFormed(s) && Enabled(s, e) && (e.OffLine? || e.OffDone? || e.Evict?)
    ensures SameButAlike(s, Next(s, e))
  {
  }

  /** A step that leaves the file and what the buffers hold alone. */
  lemma AlikeSettles(s: State, t: State)
    requires WellFormed(s) && WellFormed(t) && SameButAlike(s, t)
    ensures Settles(s) ==> Settles(t)
  {
    AlikeTouched(s.heap, t.heap);
  }

  lemma LastIsTouched(heap: seq<LogBuffer>)
    requires heap != [] && Touched(heap[|heap| - 1])
    ensures LastTouched(heap) == Some(|heap| - 1)
  {
  }

  lemma AppendSettles(s: State, b: BufferId, line: string)
    requires WellFormed(s) && s.current == Some(b) && TimersTouched(s.heap)
    ensures Settles(Appended(s, b, line))
  {
    LastIsTouched(Appended(s, b, line).heap);
  }

  lemma FinishSettles(s: State, b: BufferId)
    requires WellFormed(s) && s.current == Some(b) && TimersTouched(s.heap)
    ensures Settles(Finished(s, b))
  {
    LastIsTouched(Finished(s, b).heap);
  }

  lemma LineStepSettles(s: State, e: Event)
    requires WellFormed(s) && Enabled(s, e) && (e.Append? || e.Finish?) && Settles(s)
    ensures Settles(Next(s, e))
  {
    EnsuredIsAlike(s);
    AlikeSettles(s, Ensured(s));
    if e.Append? {
      AppendSettles(Ensured(s), Ensured(s).current.value, e.line);
    } else {
      FinishSettles(Ensured(s), Ensured(s).current.value);
    }
  }

  lemma AttachingSettles(s: State, e: Event)
    requires WellFormed(s) && Enabled(s, e) && (e.OnLine? || e.OnDone?) && Settles(s)
    ensures Settles(Next(s, e))
  {
    AttachingIsAlike(s, e);
    AlikeSettles(s, Next(s, e));
  }

  lemma DetachingSettles(s: State, e: Event)
    requires WellFormed(s) && Enabled(s, e) && (e.OffLine? || e.OffDone? || e.Evict?) && Settles(s)
    ensures Settles(Next(s, e))
  {
    DetachingIsAlike(s, e);
    AlikeSettles(s, Next(s, e));
  }

  lemma FileStepLands(s: State, e: Event)
    requires WellFormed(s) && Enabled(s, e) && (e.Mkdir? || e.Write?)
    ensures Landing(Next(s, e).heap, Next(s, e).flushes, Next(s, e).file) == Landing(s.heap, s.flushes, s.file)
  {
  }

  lemma FileStepSettles(s: State, e: Event)
    requires WellFormed(s) && Enabled(s, e) && (e.Mkdir? || e.Write?)
    ensures Settles(Next(s, e)) <==> Settles(s)
    ensures Landing(Next(s, e).heap, Next(s, e).flushes, Next(s, e).file) == Landing(s.heap, s.flushes, s.file)
  {
    FileStepLands(s, e);
    assert Next(s, e).heap == s.heap && Kept(Next(s, e)) == Kept(s);
  }

  lemma SameTouched(heap: seq<LogBuffer>, after: seq<LogBuffer>)
    requires |after| == |heap| && forall b :: 0 <= b < |heap| ==> after[b] == heap[b].(timer := after[b].timer)
    ensures LastTouched(after) == LastTouched(heap)
  {
  }

  lemma TimerOff(heap: seq<LogBuffer>, b: BufferId)
    requires b < |heap| && heap[b].timer && TimersTouched(heap)
    ensures var after := heap[b := heap[b].(timer := false)];
            && TimersTouched(after) && LastTouched(after) == LastTouched(heap) && LastTouched(heap).Some?
            && (Pending(after) <==> Pending(heap) && LastTouched(heap) != Some(b))
  {
    assert Touched(heap[b]);
    SameTouched(heap, heap[b := heap[b].(timer := false)]);
  }

  lemma FireSettlesIff(s: State, b: BufferId)
    requires WellFormed(s) && Enabled(s, Fire(b)) && Settles(s)
    ensures Settles(Next(s, Fire(b))) <==> Harmless(s, Fire(b))
  {
    TimerOff(s.heap, b);
  }

  lemma FailureSettlesIff(s: State, k: nat)
    requires WellFormed(s) && Enabled(s, FlushFails(k)) && Settles(s)
    ensures Settles(Next(s, FlushFails(k))) <==> Harmless(s, FlushFails(k))
  {
    if k == |s.flushes| - 1 {
      assert Next(s, FlushFails(k)).flushes == s.flushes[..k];
    }
  }

  lemma RestartSettlesIff(s: State)
    requires WellFormed(s) && Settles(s)
    ensures Settles(Next(s, Restart)) <==> Harmless(s, Restart)
  {
  }

  /** Exactly which steps break it: late timers, failed flushes and restarts as said, and no others, no eviction and no
      registration among them. */
  lemma StepSettlesIff(s: State, e: Event)
    requires WellFormed(s) && Enabled(s, e) && Settles(s)
    ensures Settles(Next(s, e)) <==> Harmless(s, e)
  {
    match e
    case Append(_) | Finish => LineStepSettles(s, e);
    case OnLine | OnDone => AttachingSettles(s, e);
    case OffLine(_) | OffDone(_) | Evict => DetachingSettles(s, e);
    case Restart => RestartSettlesIff(s);
    case Mkdir(_) | Write => FileStepSettles(s, e);
    case Fire(b) => FireSettlesIff(s, b);
    case FlushFails(k) => FailureSettlesIff(s, k);
  }

  ghost predicate AllHarmless(s: State, run: seq<Event>)
    requires WellFormed(s) && Legal(s, run)
    decreases |run|
  {
    run == [] || (Harmless(s, run[0]) && AllHarmless(Next(s, run[0]), run[1..]))
  }

  ghost predicate SettlesThroughout(s: State, run: seq<Event>)
    requires WellFormed(s) && Legal(s, run)
    decreases |run|
  {
    Settles(s) && (run == [] || SettlesThroughout(Next(s, run[0]), run[1..]))
  }

  lemma {:induction false} RunSettlesIff(s: State, run: seq<Event>)
    requires WellFormed(s) && Settles(s) && Legal(s, run)
    ensures SettlesThroughout(s, run) <==> AllHarmless(s, run)
    ensures AllHarmless(s, run) ==> Settles(Exec(s, run))
    decreases |run|
  {
    if run != [] {
      StepSettlesIff(s, run[0]);
      if Harmless(s, run[0]) {
        RunSettlesIff(Next(s, run[0]), run[1..]);
      }
    }
  }

  lemma StartSettles(file: Option<string>)
    ensures Settles(Start(file)) && TimersOfCurrent(Start(file))
  {
    if file.Some? { JoinOfSplit(file.value, '\n'); }
  }

  /** The file does not hold what the stream has to keep. */
  predicate Unsaved(s: State) {
    s.file != Intended(s)
  }

  /** A flush that saves it is pending or in progress. */
  ghost predicate FlushDue(s: State)
    requires WellFormed(s)
  {
    Pending(s.heap) || (s.flushes != [] && Landing(s.heap, s.flushes, s.file) == Intended(s))
  }

  /** What is promised: unsaved lines have a flush due. */
  ghost predicate Promised(s: State)
    requires WellFormed(s)
  {
    Unsaved(s) ==> FlushDue(s)
  }

  /** In every harmless run, whenever the file does not hold the lines of the last touched buffer, in memory, forgotten
      or of an earlier process, a flush that saves them is pending or in progress. */
  lemma UnsavedIsDue(file: Option<string>, run: seq<Event>)
    requires Legal(Start(file), run) && AllHarmless(Start(file), run)
    ensures Promised(Exec(Start(file), run))
  {
    StartSettles(file);
    RunSettlesIff(Start(file), run);
  }

  ghost predicate IsDrain(run: seq<Event>) {
    forall i :: 0 <= i < |run| ==> run[i].Mkdir? || run[i].Write?
  }

  /** They do get there: once the pending timer has fired and the flushes in progress have landed, the file
      holds them. */
  lemma SettledIsSaved(s: State) returns (run: seq<Event>)
    requires WellFormed(s) && Settles(s)
    ensures Legal(s, run) && forall i :: 0 <= i < |run| ==> run[i].Fire? || run[i].Mkdir? || run[i].Write?
    ensures Exec(s, run).file == Intended(s) && Exec(s, run).flushes == []
  {
    if Pending(s.heap) {
      var e := Fire(LastTouched(s.heap).value);
      FireSettlesIff(s, e.b);
      PendingFires(s, e.b);
      run := Drain(Next(s, e));
      Prepend(s, e, run);
      run := [e] + run;
    } else {
      run := Drain(s);
    }
  }

  lemma PendingFires(s: State, b: BufferId)
    requires WellFormed(s) && TimersTouched(s.heap) && LastTouched(s.heap) == Some(b) && s.heap[b].timer
    ensures !Pending(Next(s, Fire(b)).heap) && Intended(Next(s, Fire(b))) == Intended(s)
  {
    TimerOff(s.heap, b);
  }

  /** And after a step that is not harmless they are lost, if nothing more happens than that the flushes in progress
      land: they are not in the file and nothing is due. */
  lemma HarmfulStepLoses(s: State, e: Event) returns (run: seq<Event>)
    requires WellFormed(s) && Settles(s) && Enabled(s, e) && !Harmless(s, e)
    ensures Legal(s, [e] + run) && IsDrain(run)
    ensures var t := Exec(s, [e] + run); Unsaved(t) && !FlushDue(t) && t.flushes == []
  {
    StepSettlesIff(s, e);
    HarmfulKeepsTimers(s, e);
    run := Drain(Next(s, e));
    Prepend(s, e, run);
    LostWhenDrained(Next(s, e), Exec(s, [e] + run));
  }

  lemma {:induction false} DrainIsHarmless(s: State, run: seq<Event>)
    requires WellFormed(s) && Legal(s, run) && IsDrain(run)
    ensures AllHarmless(s, run)
    decreases |run|
  {
    if run != [] { DrainIsHarmless(Next(s, run[0]), run[1..]); }
  }

  /** So the promise outlives a step, while the flushes in progress land, exactly when the step is harmless. */
  lemma PromisedIffHarmless(s: State, e: Event)
    requires WellFormed(s) && Settles(s) && Enabled(s, e)
    ensures (forall run :: Legal(Next(s, e), run) && IsDrain(run) ==> Promised(Exec(Next(s, e), run))) <==>
            Harmless(s, e)
  {
    var t := Next(s, e);
    StepSettlesIff(s, e);
    if Harmless(s, e) {
      forall run | Legal(t, run) && IsDrain(run) ensures Promised(Exec(t, run)) {
        DrainIsHarmless(t, run);
        RunSettlesIff(t, run);
      }
    } else {
      HarmfulKeepsTimers(s, e);
      var run := Drain(t);
      LostWhenDrained(t, Exec(t, run));
    }
  }

  lemma HarmfulKeepsTimers(s: State, e: Event)
    requires WellFormed(s) && Enabled(s, e) && TimersTouched(s.heap) && !Harmless(s, e)
    ensures TimersTouched(Next(s, e).heap)
  {
  }

  lemma LostWhenDrained(s: State, t: State)
    requires WellFormed(s) && WellFormed(t) && TimersTouched(s.heap) && !Settles(s)
    requires t.flushes == [] && t.heap == s.heap && t.kept == s.kept && t.file == Landing(s.heap, s.flushes, s.file)
    ensures Unsaved(t) && !FlushDue(t)
  {
  }

  lemma DrainStep(s: State) returns (e: Event)
    requires WellFormed(s) && s.flushes != []
    ensures (e.Mkdir? || e.Write?) && Enabled(s, e)
    ensures var t := Next(s, e);
            && t.heap == s.heap && t.current == s.current && t.kept == s.kept
            && Landing(t.heap, t.flushes, t.file) == Landing(s.heap, s.flushes, s.file)
            && Uncaptured(t.flushes) < Uncaptured(s.flushes)
  {
    if s.flushes[0].content.None? {
      e := Mkdir(0);
    } else {
      e := Write;
    }
    FileStepSettles(s, e);
  }

  /** The steps until the flushes have landed. */
  function Uncaptured(flushes: seq<Flush>): nat {
    2 * |flushes| + if flushes != [] && flushes[0].content.None? then 1 else 0
  }

  lemma {:induction false} Drain(s: State) returns (run: seq<Event>)
    requires WellFormed(s)
    ensures Legal(s, run) && IsDrain(run)
    ensures var t := Exec(s, run);
            && t.flushes == [] && t.heap == s.heap && t.current == s.current && t.kept == s.kept
            && t.file == Landing(s.heap, s.flushes, s.file)
    decreases Uncaptured(s.flushes)
  {
    if s.flushes == [] {
      run := [];
    } else {
      var e := DrainStep(s);
      var rest := Drain(Next(s, e));
      Prepend(s, e, rest);
      run := [e] + rest;
    }
  }

  // ---------- Runs without failures, late evictions and early restarts ----------

  ghost predicate TimersOfCurrent(s: State) {
    forall b :: 0 <= b < |s.heap| && s.heap[b].timer ==> s.current == Some(b)
  }

  lemma BenignStepIsHarmless(s: State, e: Event)
    requires WellFormed(s) && Enabled(s, e) && Benign(s, e) && TimersOfCurrent(s)
    requires Settles(s)
    ensures Harmless(s, e)
  {
  }

  lemma BenignStepKeepsTimers(s: State, e: Event)
    requires WellFormed(s) && Enabled(s, e) && Benign(s, e) && TimersOfCurrent(s)
    ensures TimersOfCurrent(Next(s, e))
  {
  }

  /** There only the buffer in memory has a timer, so every step is harmless. */
  lemma {:induction false} BenignIsHarmless(s: State, run: seq<Event>)
    requires WellFormed(s) && Legal(s, run) && BenignRun(s, run) && TimersOfCurrent(s)
    requires Settles(s)
    ensures AllHarmless(s, run)
    decreases |run|
  {
    if run != [] {
      StepSettlesIff(s, run[0]);
      BenignStepIsHarmless(s, run[0]);
      BenignStepKeepsTimers(s, run[0]);
      BenignIsHarmless(Next(s, run[0]), run[1..]);
    }
  }

  // ---------- The lines that are kept, and the stream ----------

  /** Nothing came after the last touched buffer was forgotten. */
  ghost predicate Latest(s: State) {
    LastTouched(s.heap).Some? ==> Reach(s.heap[LastTouched(s.heap).value]) == |s.stream|
  }

  lemma AlikeLatest(s: State, t: State)
    requires SameButAlike(s, t)
    ensures Latest(s) ==> Latest(t)
  {
    AlikeTouched(s.heap, t.heap);
  }

  lemma CurrentReaches(s: State, b: BufferId)
    requires StreamInv(s) && WellFormed(s) && s.current == Some(b)
    ensures Reach(s.heap[b]) == |s.stream|
  {
    assert BufferFits(s.heap[b], true, s.stream, s.ends);
  }

  lemma LineStepLatest(s: State, e: Event)
    requires Inv(s) && Enabled(s, e) && (e.Append? || e.Finish?)
    ensures Latest(Next(s, e))
  {
    var b := Ensured(s).current.value;
    EnsuredKeepsInv(s);
    CurrentReaches(Ensured(s), b);
    LastIsTouched(Next(s, e).heap);
  }

  lemma AttachingKeepsLatest(s: State, e: Event)
    requires WellFormed(s) && Enabled(s, e) && (e.OnLine? || e.OnDone?) && Latest(s)
    ensures Latest(Next(s, e))
  {
    AttachingIsAlike(s, e);
    AlikeLatest(s, Next(s, e));
  }

  lemma DetachingKeepsLatest(s: State, e: Event)
    requires WellFormed(s) && Enabled(s, e) && (e.OffLine? || e.OffDone? || e.Evict?) && Latest(s)
    ensures Latest(Next(s, e))
  {
    DetachingIsAlike(s, e);
    AlikeLatest(s, Next(s, e));
  }

  lemma FileStepKeepsLatest(s: State, e: Event)
    requires WellFormed(s) && Enabled(s, e) && (e.Restart? || e.Mkdir? || e.Write? || e.FlushFails?) && Latest(s)
    ensures Latest(Next(s, e))
  {
  }

  lemma StepKeepsLatest(s: State, e: Event)
    requires Inv(s) && Enabled(s, e) && Latest(s)
    ensures Latest(Next(s, e))
  {
    match e
    case Append(_) | Finish => LineStepLatest(s, e);
    case OnLine | OnDone => AttachingKeepsLatest(s, e);
    case OffLine(_) | OffDone(_) | Evict => DetachingKeepsLatest(s, e);
    case Fire(b) => FireKeepsLatest(s, b);
    case Restart | Mkdir(_) | Write | FlushFails(_) => FileStepKeepsLatest(s, e);
  }

  lemma FireKeepsLatest(s: State, b: BufferId)
    requires WellFormed(s) && Enabled(s, Fire(b)) && Latest(s)
    ensures Latest(Next(s, Fire(b)))
  {
    SameTouched(s.heap, Next(s, Fire(b)).heap);
  }

  lemma {:induction false} RunKeepsLatest(s: State, run: seq<Event>)
    requires Inv(s) && Legal(s, run) && Latest(s)
    ensures Inv(Exec(s, run)) && Latest(Exec(s, run))
    decreases |run|
  {
    if run != [] {
      StepKeepsInv(s, run[0]);
      StepKeepsLatest(s, run[0]);
      RunKeepsLatest(Next(s, run[0]), run[1..]);
    }
  }

  /** In every run, the lines of the buffer in memory, and of the last touched one, are the window of the whole stream
      exactly when the buffer was made before the first line of the stream or has enough lines of its own. */
  lemma WindowOfStreamIff(file: Option<string>, run: seq<Event>, b: BufferId)
    requires Legal(Start(file), run)
    requires var s := Exec(Start(file), run); s.current == Some(b) || LastTouched(s.heap) == Some(b)
    ensures var s := Exec(Start(file), run);
            s.heap[b].lines == Window(s.stream) <==> s.heap[b].made.lines == 0 || |s.heap[b].all| >= MAX_LINES
  {
    RunKeepsLatest(Start(file), run);
    WindowOfStream(Exec(Start(file), run), b);
  }

  lemma WindowOfStream(s: State, b: BufferId)
    requires Inv(s) && Latest(s) && (s.current == Some(b) || LastTouched(s.heap) == Some(b))
    ensures s.heap[b].lines == Window(s.stream) <==> s.heap[b].made.lines == 0 || |s.heap[b].all| >= MAX_LINES
  {
    if s.current == Some(b) { CurrentReaches(s, b); }
    WindowOf(s, b);
    IsSuffix(s, b);
    WindowOfSuffix(s.stream, s.heap[b].made.lines);
  }

  lemma IsSuffix(s: State, b: BufferId)
    requires StreamInv(s) && b < |s.heap| && Reach(s.heap[b]) == |s.stream|
    ensures s.heap[b].made.lines <= |s.stream| && s.heap[b].all == s.stream[s.heap[b].made.lines..]
  {
    assert BufferFits(s.heap[b], s.current == Some(b), s.stream, s.ends);
  }

  lemma WindowOfSuffix(stream: seq<string>, n: nat)
    requires n <= |stream|
    ensures Window(stream[n..]) == Window(stream) <==> n == 0 || |stream| - n >= MAX_LINES
  {
  }

  // ---------- History ----------

  predicate Clean(lines: seq<string>) {
    forall l :: 0 <= l < |lines| ==> lines[l] != "" && '\n' !in lines[l]
  }

  lemma {:induction false} NonEmptyParts(parts: seq<string>)
    ensures forall x :: x in NonEmpty(parts) ==> x in parts && x != ""
    ensures (forall l :: 0 <= l < |parts| ==> parts[l] != "") ==> NonEmpty(parts) == parts
  {
    if parts != [] {
      NonEmptyParts(parts[1..]);
      assert parts == [parts[0]] + parts[1..];
    }
  }

  /** What is read back from a saved window is the window exactly when no line of it is empty or has a newline. */
  lemma ReadsBackIff(lines: seq<string>)
    ensures ReadPersisted(Some(Join(lines, '\n'))) == lines <==> Clean(lines)
  {
    var parts := Split(Join(lines, '\n'), '\n');
    NonEmptyParts(parts);
    SplitPartsLack(Join(lines, '\n'), '\n');
    if Clean(lines) {
      if lines != [] {
        SplitOfJoin(lines, '\n');
      }
    } else if NonEmpty(parts) == lines {
      forall l | 0 <= l < |lines| ensures lines[l] != "" && '\n' !in lines[l] {
        assert lines[l] in NonEmpty(parts);
      }
    }
  }

  /** Once the flushes of a harmless run are over, a new viewer gets the lines to keep exactly when they are in memory;
      or nothing is in memory, and they are clean; or a buffer is in memory that only listeners made, and there are
      none. */
  lemma HistoryIff(file: Option<string>, run: seq<Event>)
    requires Legal(Start(file), run) && AllHarmless(Start(file), run)
    requires var s := Exec(Start(file), run); s.flushes == [] && !Pending(s.heap)
    ensures var s := Exec(Start(file), run);
            if Kept(s).None? then History(s) == []
            else
              var lines := Kept(s).value;
              History(s) == lines <==>
                if s.current.None? then Clean(lines) else Touched(s.heap[s.current.value]) || lines == []
  {
    var s := Exec(Start(file), run);
    StartSettles(file);
    RunSettlesIff(Start(file), run);
    RunKeepsInv(Start(file), run);
    SettledHistory(s);
  }

  lemma SettledHistory(s: State)
    requires Inv(s) && Settles(s) && s.flushes == [] && !Pending(s.heap)
    ensures if Kept(s).None? then History(s) == []
            else
              var lines := Kept(s).value;
              History(s) == lines <==>
                if s.current.None? then Clean(lines) else Touched(s.heap[s.current.value]) || lines == []
  {
    if s.current.Some? {
      HistoryInMemory(s, s.current.value);
    } else if Kept(s).Some? {
      ReadsBackIff(Kept(s).value);
    }
  }

  lemma HistoryInMemory(s: State, b: BufferId)
    requires Inv(s) && s.current == Some(b)
    ensures if Touched(s.heap[b]) then Kept(s) == Some(s.heap[b].lines) else s.heap[b].lines == []
    ensures History(s) == s.heap[b].lines
  {
    WindowOf(s, b);
    if Touched(s.heap[b]) { LastIsTouched(s.heap); }
  }

  /** A viewer who registers while nothing is in memory hides the file from the next: the history is then empty. */
  lemma ListenerHidesFile(s: State, e: Event)
    requires WellFormed(s) && s.current.None? && (e.OnLine? || e.OnDone?)
    ensures History(Next(s, e)) == [] && Next(s, e).file == s.file && Kept(Next(s, e)) == Kept(s)
  {
    AttachingIsAlike(s, e);
    AlikeTouched(s.heap, Next(s, e).heap);
    AttachedEmpty(s, e);
  }

  lemma AttachedEmpty(s: State, e: Event)
    requires WellFormed(s) && s.current.None? && (e.OnLine? || e.OnDone?)
    ensures History(Next(s, e)) == []
  {
  }

  lemma OneLineFile(line: string)
    requires line != "" && '\n' !in line
    ensures LinesOf(Some(line)) == Some([line]) && ReadPersisted(Some(line)) == [line]
  {
    SplitOfNone(line, '\n');
    NonEmptyParts([line]);
  }

  /** From the start, and benign: the file has a line, and the history is empty. */
  lemma HiddenFileRun(line: string) returns (run: seq<Event>)
    requires line != "" && '\n' !in line
    ensures run == [Event.OnLine] && Legal(Start(Some(line)), run) && BenignRun(Start(Some(line)), run)
    ensures History(Start(Some(line))) == [line]
    ensures var t := Exec(Start(Some(line)), run);
            t.file == Some(line) && Kept(t) == Some([line]) && t.flushes == [] && History(t) == []
  {
    var s := Start(Some(line));
    OneLineFile(line);
    ListenerHidesFile(s, Event.OnLine);
    PrependBenign(s, Event.OnLine, Next(s, Event.OnLine), []);
    run := [Event.OnLine] + [];
  }

  /** The steps by which a line in a new buffer gets to the file. */
  lemma LineIsFlushed(s: State, b: BufferId, line: string) returns (run: seq<Event>)
    requires WellFormed(s) && b < |s.heap| && s.heap[b].timer && s.heap[b].lines == [line] && s.flushes == []
    ensures run == [Fire(b), Mkdir(0), Write] && Legal(s, run) && BenignRun(s, run)
    ensures Exec(s, run).file == Some(line) && Exec(s, run).flushes == [] && Exec(s, run).stream == s.stream
  {
    var s1 := Next(s, Fire(b));
    run := FlushIsWritten(s1, line);
    PrependBenign(s, Fire(b), s1, run);
    run := [Fire(b)] + run;
  }

  lemma FlushIsWritten(s: State, line: string) returns (run: seq<Event>)
    requires WellFormed(s) && |s.flushes| == 1 && s.flushes[0].content.None?
    requires s.heap[s.flushes[0].buffer].lines == [line]
    ensures run == [Mkdir(0), Write] && Legal(s, run) && BenignRun(s, run)
    ensures Exec(s, run).file == Some(line) && Exec(s, run).flushes == [] && Exec(s, run).stream == s.stream
  {
    var s1 := Next(s, Mkdir(0));
    var s2 := Next(s1, Write);
    PrependBenign(s1, Write, s2, []);
    PrependBenign(s, Mkdir(0), s1, [Write] + []);
    run := [Mkdir(0)] + ([Write] + []);
  }

  /** The first line that comes while nothing is in memory replaces the file, not only its end. */
  lemma NewBufferOverwrites(s: State, line: string) returns (run: seq<Event>)
    requires WellFormed(s) && s.current.None? && s.flushes == []
    ensures run == [Event.Append(line), Fire(|s.heap|), Mkdir(0), Write] && Legal(s, run) && BenignRun(s, run)
    ensures Exec(s, run).file == Some(line) && Exec(s, run).flushes == [] && Exec(s, run).stream == s.stream + [line]
  {
    AppendedAnew(s, line);
    var t := Next(s, Event.Append(line));
    var rest := LineIsFlushed(t, |s.heap|, line);
    PrependBenign(s, Event.Append(line), t, rest);
    run := [Event.Append(line)] + rest;
  }

  /** From the start, and benign: the file had "a", the stream goes on with "b", and "b" is all that is left. */
  lemma OverwrittenRun() returns (run: seq<Event>)
    ensures run == [Event.Append("b"), Fire(0), Mkdir(0), Write]
    ensures Legal(Start(Some("a")), run) && BenignRun(Start(Some("a")), run)
    ensures Exec(Start(Some("a")), run).file == Some("b") && Exec(Start(Some("a")), run).flushes == []
  {
    run := NewBufferOverwrites(Start(Some("a")), "b");
  }

  // ---------- Runs that lose content ----------

  lemma LateFires(s: State, b: BufferId) returns (drain: seq<Event>, run: seq<Event>)
    requires WellFormed(s) && |s.heap| == b + 2 && s.heap[b].timer && s.heap[b + 1].timer && Touched(s.heap[b + 1])
    requires TextOf(s.heap[b]) != TextOf(s.heap[b + 1])
    ensures run == [Fire(b + 1)] + ([Fire(b)] + drain) && IsDrain(drain) && Legal(s, run)
    ensures var t := Exec(s, run);
            && Unsaved(t) && !FlushDue(t) && t.flushes == [] && |t.heap| == b + 2
            && t.file == Some(TextOf(s.heap[b])) && Kept(t) == Some(s.heap[b + 1].lines)
  {
    var fired := BothFire(s, b);
    drain := Drain(fired);
    LastIsTouched(fired.heap);
    Prepend(Next(s, Fire(b + 1)), Fire(b), drain);
    Prepend(s, Fire(b + 1), [Fire(b)] + drain);
    run := [Fire(b + 1)] + ([Fire(b)] + drain);
  }

  lemma LateAppend(s: State, b: BufferId, line: string) returns (drain: seq<Event>, run: seq<Event>)
    requires WellFormed(s) && s.current.None? && |s.heap| == b + 1 && s.heap[b].timer && line != TextOf(s.heap[b])
    ensures run == [Event.Append(line)] + ([Fire(b + 1)] + ([Fire(b)] + drain)) && IsDrain(drain) && Legal(s, run)
    ensures var t := Exec(s, run);
            && Unsaved(t) && !FlushDue(t) && t.flushes == []
            && t.file == Some(TextOf(s.heap[b])) && Kept(t) == Some([line])
  {
    var t := Next(s, Event.Append(line));
    AppendedAnew(s, line);
    var rest: seq<Event>;
    drain, rest := LateFires(t, b);
    Prepend(s, Event.Append(line), rest);
    run := [Event.Append(line)] + rest;
  }

  lemma AppendedAnew(s: State, line: string)
    requires WellFormed(s) && s.current.None?
    ensures var t, n := Next(s, Event.Append(line)), |s.heap|;
            && |t.heap| == n + 1 && (forall b :: 0 <= b < n ==> t.heap[b] == s.heap[b])
            && t.heap[n].timer && t.heap[n].lines == [line] && Touched(t.heap[n])
            && t.flushes == s.flushes && t.stream == s.stream + [line]
  {
  }

  /** An eviction while the timer of its buffer runs can do harm later: the next buffer is flushed, then the late timer
      fires, and the file is left with the lines of the evicted buffer. */
  lemma LateTimerOverwrites(s: State, b: BufferId, line: string) returns (drain: seq<Event>, run: seq<Event>)
    requires WellFormed(s) && s.current == Some(b) && s.heap[b].timer && s.evictions > 0 && line != TextOf(s.heap[b])
    ensures run == [Evict] + ([Event.Append(line)] + ([Fire(b + 1)] + ([Fire(b)] + drain))) && IsDrain(drain)
    ensures Legal(s, run)
    ensures var t := Exec(s, run);
            && Unsaved(t) && !FlushDue(t) && t.flushes == []
            && t.file == Some(TextOf(s.heap[b])) && Kept(t) == Some([line])
  {
    var t := Next(s, Evict);
    var rest: seq<Event>;
    drain, rest := LateAppend(t, b, line);
    Prepend(s, Evict, rest);
    run := [Evict] + rest;
  }

  lemma BothFire(s: State, b: BufferId) returns (t: State)
    requires WellFormed(s) && |s.heap| == b + 2 && s.heap[b].timer && s.heap[b + 1].timer
    ensures Enabled(s, Fire(b + 1)) && Enabled(Next(s, Fire(b + 1)), Fire(b))
    ensures t == Next(Next(s, Fire(b + 1)), Fire(b)) && |t.heap| == b + 2
    ensures t.heap[b].lines == s.heap[b].lines && t.heap[b + 1] == s.heap[b + 1].(timer := false)
    ensures Landing(t.heap, t.flushes, t.file) == Some(TextOf(s.heap[b]))
  {
    t := Next(Next(s, Fire(b + 1)), Fire(b));
  }

  lemma FirstAppend(line: string)
    ensures var t := Next(Start(None), Event.Append(line));
            && t.current == Some(0) && |t.heap| == 1 && t.flushes == [] && t.file == None
            && t.heap[0].timer && t.heap[0].lines == [line] && Touched(t.heap[0])
  {
    FirstBuffer();
  }

  lemma FirstFinished(s: State)
    requires WellFormed(s) && s.current == Some(0)
    ensures var t := Next(s, Event.Finish);
            && t.current == Some(0) && t.evictions == s.evictions + 1
            && t.heap[0].timer == s.heap[0].timer && t.heap[0].lines == s.heap[0].lines
  {
  }

  /** From the start: such an eviction loses the line "b", in the file of which only "a" is left. */
  lemma LateTimerRun() returns (run: seq<Event>)
    ensures Legal(Start(None), run)
    ensures var t := Exec(Start(None), run);
            && Unsaved(t) && !FlushDue(t) && t.flushes == []
            && t.file == Some("a") && Kept(t) == Some(["b"])
  {
    FirstAppend("a");
    var s1 := Next(Start(None), Event.Append("a"));
    FirstFinished(s1);
    var s2 := Next(s1, Event.Finish);
    var drain, rest := LateTimerOverwrites(s2, 0, "b");
    Prepend(s1, Event.Finish, rest);
    Prepend(Start(None), Event.Append("a"), [Event.Finish] + rest);
    run := [Event.Append("a")] + ([Event.Finish] + rest);
  }

  lemma OnlyFlushFails(s: State) returns (run: seq<Event>)
    requires WellFormed(s) && |s.heap| == 1 && s.heap[0].timer && Touched(s.heap[0])
    requires s.flushes == [] && s.file == None
    ensures run == [Fire(0), FlushFails(0)] && Legal(s, run)
    ensures var t := Exec(s, run);
            && Unsaved(t) && !FlushDue(t) && t.flushes == [] && Kept(t) == Some(s.heap[0].lines)
  {
    var s1 := Next(s, Fire(0));
    var s2 := Next(s1, FlushFails(0));
    LastIsTouched(s2.heap);
    Prepend(s1, FlushFails(0), []);
    Prepend(s, Fire(0), [FlushFails(0)] + []);
    run := [Fire(0)] + ([FlushFails(0)] + []);
  }

  /** From the start: a flush that fails is not tried again, and the line is lost. */
  lemma FailedFlushIsLost() returns (run: seq<Event>)
    ensures run == [Event.Append("a"), Fire(0), FlushFails(0)] && Legal(Start(None), run)
    ensures var t := Exec(Start(None), run);
            && Unsaved(t) && !FlushDue(t) && t.flushes == [] && Kept(t) == Some(["a"])
  {
    FirstAppend("a");
    var s := Next(Start(None), Event.Append("a"));
    var rest := OnlyFlushFails(s);
    Prepend(Start(None), Event.Append("a"), rest);
    run := [Event.Append("a")] + rest;
  }
}
