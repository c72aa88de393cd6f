/**
 Server-sent events: frames pulled out of a rolling buffer, chunk by chunk. This is the part of section 9.2 of
 the WHATWG HTML Standard with LF line ends and `data` fields, each data line being emitted separately.
 */
module Sse {
  import opened Options
  import opened Text

  // ---------- Splitting at blank lines ----------

  predicate BlankAt(s: string, i: int) {
    0 <= i && i + 1 < |s| && s[i] == '\n' && s[i + 1] == '\n'
  }

  ghost predicate HasBlank(s: string) {
    exists i :: BlankAt(s, i)
  }

  /** The first blank line, or the length when there is none. */
  function FirstBlank(s: string): (i: nat)
    ensures i <= |s| && (i < |s| ==> BlankAt(s, i))
    ensures forall j :: 0 <= j < i ==> !BlankAt(s, j)
  {
    if |s| < 2 then |s|
    else if BlankAt(s, 0) then 0
    else
      var i := FirstBlank(s[1..]);
      assert forall j :: 0 < j < |s| ==> (BlankAt(s, j) <==> BlankAt(s[1..], j - 1));
      i + 1
  }

  /** The text split at "\n\n", from the left. */
  function SplitBlank(s: string): (parts: seq<string>)
    ensures parts != []
  {
    var i := FirstBlank(s);
    if i == |s| then [s] else [s[..i]] + SplitBlank(s[i + 2..])
  }

  /** The complete frames of a text. */
  function Frames(s: string): seq<string> {
    SplitBlank(s)[..|SplitBlank(s)| - 1]
  }

  /** The incomplete frame after them. */
  function Rest(s: string): string {
    SplitBlank(s)[|SplitBlank(s)| - 1]
  }

  function Glue(frames: seq<string>, rest: string): string {
    if frames == [] then rest else frames[0] + "\n\n" + Glue(frames[1..], rest)
  }

  /** What the split has to be, without saying how it is found. */
  ghost predicate IsSplit(s: string, frames: seq<string>, rest: string) {
    && s == Glue(frames, rest)
    && !HasBlank(rest)
    && forall k :: 0 <= k < |frames| ==> IsFrame(frames[k])
  }

  /** No blank line inside, and none that starts at the last character. */
  ghost predicate IsFrame(frame: string) {
    !HasBlank(frame) && (frame != "" ==> frame[|frame| - 1] != '\n')
  }

  lemma FirstBlankOfFrame(frame: string, tail: string)
    requires IsFrame(frame)
    ensures FirstBlank(frame + "\n\n" + tail) == |frame|
  {
    var s := frame + "\n\n" + tail;
    assert BlankAt(s, |frame|);
    forall j | 0 <= j < |frame| ensures !BlankAt(s, j) {
      assert !BlankAt(frame, j);
    }
  }

  lemma CutAtBlank(s: string, i: nat)
    requires BlankAt(s, i)
    ensures s == s[..i] + "\n\n" + s[i + 2..]
  {
    assert s[i..i + 2] == "\n\n";
  }

  lemma FrameBeforeBlank(s: string, i: nat)
    requires i == FirstBlank(s) < |s|
    ensures IsFrame(s[..i])
  {
    forall j ensures !BlankAt(s[..i], j) {
      assert 0 <= j < i ==> !BlankAt(s, j);
    }
    assert i > 0 && s[i - 1] == '\n' ==> BlankAt(s, i - 1);
  }

  lemma BeforeFirstBlank(s: string, i: nat)
    requires i == FirstBlank(s) < |s|
    ensures IsFrame(s[..i]) && s == s[..i] + "\n\n" + s[i + 2..]
  {
    FrameBeforeBlank(s, i);
    CutAtBlank(s, i);
  }

  lemma SplitFirst(s: string, i: nat)
    requires i == FirstBlank(s) < |s|
    ensures Frames(s) == [s[..i]] + Frames(s[i + 2..]) && Rest(s) == Rest(s[i + 2..])
  {
    SplitBlankFirst(s, i);
    FrontAndLast(s[..i], SplitBlank(s[i + 2..]));
  }

  lemma SplitBlankFirst(s: string, i: nat)
    requires i == FirstBlank(s) < |s| && BlankAt(s, i)
    ensures SplitBlank(s) == [s[..i]] + SplitBlank(s[i + 2..])
  {
    var first, more := [s[..i]], SplitBlank(s[i + 2..]);
    assert SplitBlank(s) == first + more;
  }

  lemma FrontAndLast(first: string, parts: seq<string>)
    requires parts != []
    ensures var all := [first] + parts;
            && all[..|all| - 1] == [first] + parts[..|parts| - 1] && all[|all| - 1] == parts[|parts| - 1]
  {
  }

  lemma {:induction false} SplitIsSplit(s: string)
    ensures IsSplit(s, Frames(s), Rest(s))
    decreases |s|
  {
    var i := FirstBlank(s);
    if i < |s| {
      BeforeFirstBlank(s, i);
      SplitFirst(s, i);
      SplitIsSplit(s[i + 2..]);
    }
  }

  lemma {:induction false} OnlySplit(frames: seq<string>, rest: string)
    requires IsSplit(Glue(frames, rest), frames, rest)
    ensures Frames(Glue(frames, rest)) == frames && Rest(Glue(frames, rest)) == rest
  {
    var s := Glue(frames, rest);
    if frames == [] {
      assert !BlankAt(rest, FirstBlank(s));
    } else {
      var tail := Glue(frames[1..], rest);
      OnlySplit(frames[1..], rest);
      FirstBlankOfFrame(frames[0], tail);
      assert s[..|frames[0]|] == frames[0] && s[|frames[0]| + 2..] == tail;
      SplitFirst(s, |frames[0]|);
    }
  }

  /** The split is the one and only way to cut a text into complete frames and a remainder. */
  lemma SplitExact(s: string, frames: seq<string>, rest: string)
    ensures IsSplit(s, frames, rest) <==> frames == Frames(s) && rest == Rest(s)
  {
    SplitIsSplit(s);
    if IsSplit(s, frames, rest) {
      OnlySplit(frames, rest);
    }
  }

  // ---------- Data lines ----------

  predicate IsData(line: string) {
    "data:" <= line
  }

  /** What follows the field name, less one space. */
  function Payload(line: string): string
    requires IsData(line)
  {
    if |line| > 5 && line[5] == ' ' then line[6..] else line[5..]
  }

  function DataOfLines(lines: seq<string>): seq<string> {
    if lines == [] then []
    else
      var last := lines[|lines| - 1];
      DataOfLines(lines[..|lines| - 1]) + if IsData(last) then [Payload(last)] else []
  }

  function DataOfFrame(frame: string): seq<string> {
    DataOfLines(Split(frame, '\n'))
  }

  function DataOf(frames: seq<string>): seq<string> {
    if frames == [] then [] else DataOf(frames[..|frames| - 1]) + DataOfFrame(frames[|frames| - 1])
  }

  lemma {:induction false} DataOfConcat(a: seq<string>, b: seq<string>)
    ensures DataOf(a + b) == DataOf(a) + DataOf(b)
  {
    if b == [] {
      assert a + b == a;
    } else {
      var init, last := b[..|b| - 1], b[|b| - 1];
      DataOfConcat(a, init);
      assert (a + b)[..|a + b| - 1] == a + init && (a + b)[|a + b| - 1] == last;
      assert DataOf(a + b) == (DataOf(a) + DataOf(init)) + DataOfFrame(last);
      Associate(DataOf(a), DataOf(init), DataOfFrame(last));
    }
  }

  method ParseSseBuffer(buffer: string) returns (data: seq<string>, rest: string)
    ensures data == DataOf(Frames(buffer)) && rest == Rest(buffer)
  {
    var frames := SplitBlank(buffer);
    rest := frames[|frames| - 1];
    frames := frames[..|frames| - 1];
    data := [];
    for f := 0 to |frames|
      invariant data == DataOf(frames[..f])
    {
      var lines := Split(frames[f], '\n');
      for l := 0 to |lines|
        invariant data == DataOf(frames[..f]) + DataOfLines(lines[..l])
      {
        if IsData(lines[l]) {
          data := data + [Payload(lines[l])];
        }
        assert lines[..l + 1][..l] == lines[..l];
      }
      assert lines[..|lines|] == lines && DataOfFrame(frames[f]) == DataOfLines(lines) && frames[..f + 1][..f] == frames[..f];
    }
    assert frames[..|frames|] == frames;
  }

  // ---------- Which data, and in what order ----------

  /** A data line and its message: one space after the colon does not belong to it. */
  predicate Carries(line: string, message: string) {
    line == "data: " + message || (line == "data:" + message && (message != "" ==> message[0] != ' '))
  }

  ghost predicate IsDataLine(line: string) {
    exists message :: Carries(line, message)
  }

  /** The messages are those of the lines at these places, which go upward and are all that have one. */
  ghost predicate InOrder(lines: seq<string>, at: seq<nat>, messages: seq<string>) {
    && |at| == |messages|
    && (forall i :: 0 <= i < |at| ==> at[i] < |lines| && Carries(lines[at[i]], messages[i]))
    && (forall i, j :: 0 <= i < j < |at| ==> at[i] < at[j])
    && (forall l: nat :: l < |lines| && IsDataLine(lines[l]) ==> l in at)
  }

  lemma DataCarries(line: string)
    ensures IsDataLine(line) <==> IsData(line)
    ensures IsData(line) ==> Carries(line, Payload(line))
  {
    if IsData(line) {
      assert line == line[..5] + line[5..] && line[..5] == "data:";
      if |line| > 5 && line[5] == ' ' {
        assert line == "data: " + line[6..];
      }
      assert Carries(line, Payload(line));
    }
    if message :| Carries(line, message) {
      assert "data: " == "data:" + " ";
      assert line == "data:" + line[5..];
    }
  }

  lemma OneMoreLine(lines: seq<string>, at: seq<nat>, messages: seq<string>, line: string)
    requires InOrder(lines, at, messages)
    ensures IsData(line) ==> InOrder(lines + [line], at + [|lines|], messages + [Payload(line)])
    ensures !IsData(line) ==> InOrder(lines + [line], at, messages)
  {
    DataCarries(line);
    assert forall l :: 0 <= l < |lines| ==> (lines + [line])[l] == lines[l];
  }

  lemma {:induction false} DataOfLinesInOrder(lines: seq<string>) returns (at: seq<nat>)
    ensures InOrder(lines, at, DataOfLines(lines))
  {
    if lines == [] {
      at := [];
    } else {
      var n := |lines| - 1;
      at := DataOfLinesInOrder(lines[..n]);
      OneMoreLine(lines[..n], at, DataOfLines(lines[..n]), lines[n]);
      assert lines == lines[..n] + [lines[n]];
      if IsData(lines[n]) { at := at + [n]; }
    }
  }

  /** All lines of all frames. */
  function LinesOf(frames: seq<string>): seq<string> {
    if frames == [] then [] else LinesOf(frames[..|frames| - 1]) + Split(frames[|frames| - 1], '\n')
  }

  lemma {:induction false} DataOfLinesConcat(a: seq<string>, b: seq<string>)
    ensures DataOfLines(a + b) == DataOfLines(a) + DataOfLines(b)
  {
    if b == [] {
      assert a + b == a;
    } else {
      var init, last := b[..|b| - 1], b[|b| - 1];
      DataOfLinesConcat(a, init);
      assert (a + b)[..|a + b| - 1] == a + init && (a + b)[|a + b| - 1] == last;
      Associate(DataOfLines(a), DataOfLines(init), if IsData(last) then [Payload(last)] else []);
    }
  }

  lemma {:induction false} DataOfIsOfLines(frames: seq<string>)
    ensures DataOf(frames) == DataOfLines(LinesOf(frames))
  {
    if frames != [] {
      var n := |frames| - 1;
      DataOfIsOfLines(frames[..n]);
      DataOfLinesConcat(LinesOf(frames[..n]), Split(frames[n], '\n'));
    }
  }

  /** What is emitted are the messages of exactly the data lines of the frames, several of an event included, each once
      and in order. */
  lemma DataInOrder(frames: seq<string>) returns (at: seq<nat>)
    ensures InOrder(LinesOf(frames), at, DataOf(frames))
  {
    DataOfIsOfLines(frames);
    at := DataOfLinesInOrder(LinesOf(frames));
  }

  // ---------- Chunk by chunk ----------

  function Concat(chunks: seq<string>): string {
    if chunks == [] then "" else Concat(chunks[..|chunks| - 1]) + chunks[|chunks| - 1]
  }

  /** A text that arrives in two pieces: parse the first, carry its remainder into the second. */
  lemma {:induction false} ParseInTwo(s: string, t: string)
    ensures Frames(s + t) == Frames(s) + Frames(Rest(s) + t) && Rest(s + t) == Rest(Rest(s) + t)
    decreases |s|
  {
    var i := FirstBlank(s);
    if i < |s| {
      BeforeFirstBlank(s, i);
      SplitFirst(s, i);
      FirstBlankOfFrame(s[..i], s[i + 2..] + t);
      assert s + t == s[..i] + "\n\n" + (s[i + 2..] + t);
      SplitFirst(s + t, i);
      assert (s + t)[..i] == s[..i] && (s + t)[i + 2..] == s[i + 2..] + t;
      ParseInTwo(s[i + 2..], t);
    }
  }

  datatype ApiError = ApiError(status: nat)

  /** The response is `body`, decoded text in chunks, or an error status. Whatever the chunks are, what is
      emitted is what one parse of the whole text would give. */
  method StreamSse(status: nat, body: Option<seq<string>>)
    returns (error: Option<ApiError>, emitted: seq<string>, buffer: string)
    ensures error.Some? <==> !(200 <= status < 300) || body.None?
    ensures error.Some? ==> error.value.status == status && emitted == []
    ensures error.None? ==> emitted == DataOf(Frames(Concat(body.value))) && buffer == Rest(Concat(body.value))
    ensures error.None? ==> !HasBlank(buffer)
  {
    error, emitted, buffer := None, [], "";
    if !(200 <= status < 300) || body.None? {
      error := Some(ApiError(status));
      return;
    }
    var chunks := body.value;
    for c := 0 to |chunks|
      invariant emitted == DataOf(Frames(Concat(chunks[..c]))) && buffer == Rest(Concat(chunks[..c]))
      invariant !HasBlank(buffer)
    {
      ghost var whole := Concat(chunks[..c]);
      assert chunks[..c + 1][..c] == chunks[..c];
      buffer := buffer + chunks[c];
      ParseInTwo(whole, chunks[c]);
      DataOfConcat(Frames(whole), Frames(buffer));
      SplitIsSplit(buffer);
      var data, rest := ParseSseBuffer(buffer);
      buffer := rest;
      emitted := emitted + data;
    }
    assert chunks[..|chunks|] == chunks;
  }

  // ---------- What a server sends ----------

  /** Non-empty lines of one event. */
  ghost predicate IsEvent(lines: seq<string>) {
    lines != [] && forall k :: 0 <= k < |lines| ==> lines[k] != "" && '\n' !in lines[k]
  }

  function Encoded(events: seq<seq<string>>): string {
    if events == [] then "" else Join(events[0], '\n') + "\n\n" + Encoded(events[1..])
  }

  function DataOfEvents(events: seq<seq<string>>): seq<string> {
    if events == [] then [] else DataOfLines(events[0]) + DataOfEvents(events[1..])
  }

  lemma {:induction false} EventIsFrame(lines: seq<string>)
    requires IsEvent(lines)
    ensures IsFrame(Join(lines, '\n')) && Join(lines, '\n') != "" && Join(lines, '\n')[0] != '\n'
  {
    var s, first := Join(lines, '\n'), lines[0];
    assert forall j :: 0 <= j < |first| ==> first[j] in first;
    if |lines| > 1 {
      var tail := Join(lines[1..], '\n');
      EventIsFrame(lines[1..]);
      assert s == first + ['\n'] + tail;
      forall j ensures !BlankAt(s, j) {
        assert !BlankAt(tail, j - |first| - 1);
        assert 0 <= j < |first| ==> s[j] == first[j];
      }
    }
  }

  lemma {:induction false} EncodedFrames(events: seq<seq<string>>)
    requires forall e :: 0 <= e < |events| ==> IsEvent(events[e])
    ensures Frames(Encoded(events)) == seq(|events|, e requires 0 <= e < |events| => Join(events[e], '\n'))
    ensures Rest(Encoded(events)) == ""
  {
    if events != [] {
      var frame, tail := Join(events[0], '\n'), Encoded(events[1..]);
      EventIsFrame(events[0]);
      FirstBlankOfFrame(frame, tail);
      var s := frame + "\n\n" + tail;
      assert s[..|frame|] == frame && s[|frame| + 2..] == tail;
      SplitFirst(s, |frame|);
      EncodedFrames(events[1..]);
    }
  }

  lemma DataOfOne(frame: string)
    ensures DataOf([frame]) == DataOfFrame(frame)
  {
    var none: seq<string> := [];
    assert [frame][..0] == none && DataOf(none) == [];
  }

  lemma {:induction false} DataOfJoined(events: seq<seq<string>>, frames: seq<string>)
    requires |frames| == |events|
    requires forall e :: 0 <= e < |events| ==> IsEvent(events[e]) && frames[e] == Join(events[e], '\n')
    ensures DataOf(frames) == DataOfEvents(events)
  {
    if events != [] {
      DataOfJoined(events[1..], frames[1..]);
      assert frames == [frames[0]] + frames[1..];
      DataOfConcat([frames[0]], frames[1..]);
      DataOfOne(frames[0]);
      SplitOfJoin(events[0], '\n');
    }
  }

  /** Whatever the chunks, the client gets each data line of each event once and in order, and keeps nothing. */
  lemma EventsArrive(events: seq<seq<string>>, chunks: seq<string>)
    requires forall e :: 0 <= e < |events| ==> IsEvent(events[e])
    requires Concat(chunks) == Encoded(events)
    ensures DataOf(Frames(Concat(chunks))) == DataOfEvents(events) && Rest(Concat(chunks)) == ""
  {
    EncodedFrames(events);
    DataOfJoined(events, Frames(Encoded(events)));
  }

  /** One event for each message: a line of another field, then the data line, with or without the space. */
  function DataEvents(messages: seq<string>, field: string, spaced: bool): seq<seq<string>> {
    seq(|messages|, m requires 0 <= m < |messages| => [field, (if spaced then "data: " else "data:") + messages[m]])
  }

  lemma PayloadOf(message: string, spaced: bool)
    requires spaced || message == "" || message[0] != ' '
    ensures var line := (if spaced then "data: " else "data:") + message;
            IsData(line) && Payload(line) == message
  {
    var line := (if spaced then "data: " else "data:") + message;
    if spaced {
      assert line[6..] == message;
    } else {
      assert line[5..] == message;
    }
  }

  lemma DataOfPair(field: string, line: string)
    requires !IsData(field) && IsData(line)
    ensures DataOfLines([field, line]) == [Payload(line)]
  {
    var none: seq<string> := [];
    assert [field, line][..1] == [field] && [field][..0] == none;
    assert DataOfLines([field]) == [];
  }

  lemma {:induction false} DataOfMessages(messages: seq<string>, field: string, spaced: bool)
    requires !IsData(field)
    requires forall m :: 0 <= m < |messages| ==> spaced || messages[m] == "" || messages[m][0] != ' '
    ensures DataOfEvents(DataEvents(messages, field, spaced)) == messages
  {
    if messages != [] {
      assert DataEvents(messages, field, spaced)[1..] == DataEvents(messages[1..], field, spaced);
      DataOfMessages(messages[1..], field, spaced);
      PayloadOf(messages[0], spaced);
      DataOfPair(field, (if spaced then "data: " else "data:") + messages[0]);
    }
  }

  /** Newline-free messages, each sent as one data line after a line of another field, come back as they were sent:
      with the space after the colon, or without it when no message starts with one. */
  lemma MessagesArrive(messages: seq<string>, field: string, spaced: bool, chunks: seq<string>)
    requires field != "" && '\n' !in field && !IsData(field)
    requires forall m :: 0 <= m < |messages| ==>
               '\n' !in messages[m] && (spaced || messages[m] == "" || messages[m][0] != ' ')
    requires Concat(chunks) == Encoded(DataEvents(messages, field, spaced))
    ensures DataOf(Frames(Concat(chunks))) == messages && Rest(Concat(chunks)) == ""
  {
    EventsArrive(DataEvents(messages, field, spaced), chunks);
    DataOfMessages(messages, field, spaced);
  }
}
