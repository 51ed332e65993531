/** The chat page's read loop over a streamed reply: text arrives in chunks cut anywhere,
    complete lines are handled as they become complete. */
module EventStream {
  import opened Options
  import opened Text

  /** The injected topics of a start event: absent, their titles, or an element that cannot
      be read, which throws. */
  datatype Topics = NoTopics | Titles(titles: seq<string>) | Unreadable

  /** What one data payload turns out to be. `Null` parses but throws when its type is read. */
  datatype Event =
    | Invalid | Null
    | Delta(text: string)
    | Start(model: string, topics: Topics)
    | ToolUse(name: string)
    | ToolResult
    | Finished(cost: Option<real>)
    | Failed(message: string)
    | Unknown

  datatype Fault = NoFault | ReplyFailed(message: string) | Interrupted

  /** The page's state while the reply streams in. */
  datatype Live = Live(text: string, note: string, model: string, topics: seq<string>, cost: Option<real>, fault: Fault)

  /** A handled line: the new state, and whether handling it threw. */
  datatype Handled = Handled(live: Live, threw: bool)

  function Apply(l: Live, e: Event): Handled {
    match e
    case Invalid => Handled(l, false)
    case Null => Handled(l, true)
    case Delta(t) => Handled(l.(text := l.text + t, note := ""), false)
    case Start(m, ts) =>
      var k := l.(model := if m != "" then m else l.model);
      if ts.Unreadable? then Handled(k, true)
      else Handled(k.(topics := if ts.Titles? then ts.titles else []), false)
    case ToolUse(n) => Handled(l.(note := n), false)
    case ToolResult => Handled(l.(note := ""), false)
    case Finished(c) => Handled(if c.Some? && c.value > 0.0 then l.(cost := c) else l, false)
    case Failed(m) => Handled(l.(fault := ReplyFailed(m)), false)
    case Unknown => Handled(l, false)
  }

  /** The library functions the loop calls, as arbitrary functions of their input. */
  datatype Library = Library(trim: string -> string, parse: string -> Event)

  function HandleLine(lib: Library, l: Live, raw: string): Handled {
    var line := lib.trim(raw);
    if !("data:" <= line) then Handled(l, false)
    else
      var payload := lib.trim(line[5..]);
      if payload == "" then Handled(l, false) else Apply(l, lib.parse(payload))
  }

  /** Lines in order, up to the first that throws. */
  function HandleLines(lib: Library, l: Live, lines: seq<string>): Handled {
    if lines == [] then Handled(l, false)
    else
      var before := HandleLines(lib, l, lines[..|lines| - 1]);
      if before.threw then before else HandleLine(lib, before.live, lines[|lines| - 1])
  }

  /** The newline-terminated lines of a text, and what follows the last newline. */
  function Lines(text: string): seq<string> {
    var pieces := Split(text, '\n');
    pieces[..|pieces| - 1]
  }

  function Rest(text: string): string {
    var pieces := Split(text, '\n');
    pieces[|pieces| - 1]
  }

  function Concat(chunks: seq<string>): string {
    if chunks == [] then "" else Concat(chunks[..|chunks| - 1]) + chunks[|chunks| - 1]
  }

  /** The reply as a function of the whole text received. */
  function Reply(lib: Library, l: Live, text: string, broken: bool): Live {
    var h := HandleLines(lib, l, Lines(text));
    if h.threw || broken then h.live.(fault := Interrupted) else h.live
  }

  // ---- cutting the text ----

  lemma FirstCut(a: string, b: string, i: nat)
    requires i == IndexOf(a, '\n') < |a|
    ensures Split(a + b, '\n') == [a[..i]] + Split(a[i + 1..] + b, '\n')
    ensures Lines(a) == [a[..i]] + Lines(a[i + 1..]) && Rest(a) == Rest(a[i + 1..])
  {
    assert (a + b)[..i] == a[..i];
    IndexOfIs(a + b, '\n', i);
    assert (a + b)[i + 1..] == a[i + 1..] + b;
  }

  lemma {:induction false} SplitConcat(a: string, b: string)
    ensures Split(a + b, '\n') == Lines(a) + Split(Rest(a) + b, '\n')
  {
    var i := IndexOf(a, '\n');
    if i == |a| {
      assert Lines(a) == [] && Rest(a) == a;
    } else {
      FirstCut(a, b, i);
      SplitConcat(a[i + 1..], b);
    }
  }

  lemma LinesConcat(a: string, b: string)
    ensures Lines(a + b) == Lines(a) + Lines(Rest(a) + b)
    ensures Rest(a + b) == Rest(Rest(a) + b)
  {
    SplitConcat(a, b);
  }

  lemma {:induction false} HandleConcat(lib: Library, l: Live, a: seq<string>, b: seq<string>)
    ensures HandleLines(lib, l, a + b)
         == var h := HandleLines(lib, l, a); if h.threw then h else HandleLines(lib, h.live, b)
  {
    if b == [] {
      assert a + b == a;
    } else {
      HandleConcat(lib, l, a, b[..|b| - 1]);
      assert (a + b)[..|a + b| - 1] == a + b[..|b| - 1];
    }
  }

  lemma {:induction false} ThrewStays(lib: Library, l: Live, chunks: seq<string>, k: nat)
    requires k <= |chunks| && HandleLines(lib, l, Lines(Concat(chunks[..k]))).threw
    ensures HandleLines(lib, l, Lines(Concat(chunks))) == HandleLines(lib, l, Lines(Concat(chunks[..k])))
    decreases |chunks|
  {
    if k == |chunks| {
      assert chunks[..k] == chunks;
    } else {
      var front := chunks[..|chunks| - 1];
      assert front[..k] == chunks[..k];
      ThrewStays(lib, l, front, k);
      LinesConcat(Concat(front), chunks[|chunks| - 1]);
      HandleConcat(lib, l, Lines(Concat(front)), Lines(Rest(Concat(front)) + chunks[|chunks| - 1]));
    }
  }

  /** One chunk's lines, as the inner loop handles them. */
  method HandleBatch(lib: Library, start: Live, lines: seq<string>) returns (h: Handled)
    ensures h == HandleLines(lib, start, lines)
  {
    h := Handled(start, false);
    var i := 0;
    while i < |lines|
      invariant i <= |lines| && h == HandleLines(lib, start, lines[..i]) && !h.threw
    {
      assert lines[..i + 1][..i] == lines[..i];
      assert lines == lines[..i + 1] + lines[i + 1..];
      HandleConcat(lib, start, lines[..i + 1], lines[i + 1..]);
      h := HandleLine(lib, h.live, lines[i]);
      i := i + 1;
      if h.threw {
        return;
      }
    }
    assert lines[..i] == lines;
  }

  /** The read loop. `broken`: the connection failed after the last chunk. Whatever the
      cuts, the outcome is that of the whole text's newline-terminated lines. */
  method ReadReply(lib: Library, start: Live, chunks: seq<string>, broken: bool) returns (live: Live)
    ensures live == Reply(lib, start, Concat(chunks), broken)
  {
    live := start;
    var buf := "";
    var i := 0;
    while i < |chunks|
      invariant i <= |chunks|
      invariant buf == Rest(Concat(chunks[..i]))
      invariant HandleLines(lib, start, Lines(Concat(chunks[..i]))) == Handled(live, false)
    {
      ghost var seen := Concat(chunks[..i]);
      assert chunks[..i + 1][..i] == chunks[..i];
      LinesConcat(seen, chunks[i]);
      HandleConcat(lib, start, Lines(seen), Lines(Rest(seen) + chunks[i]));
      buf := buf + chunks[i];
      var pieces := Split(buf, '\n');
      buf := pieces[|pieces| - 1];
      var h := HandleBatch(lib, live, pieces[..|pieces| - 1]);
      live := h.live;
      i := i + 1;
      if h.threw {
        ThrewStays(lib, start, chunks, i);
        live := live.(fault := Interrupted);
        return;
      }
    }
    assert chunks[..i] == chunks;
    if broken {
      live := live.(fault := Interrupted);
    }
  }

  // ---- what the lines are ----

  /** The lines, each with its newline, and the unfinished rest make up the text again, and
      no line contains a newline: these are exactly its newline-terminated lines. */
  lemma LinesAreTerminated(text: string)
    ensures Join(Lines(text) + [Rest(text)], '\n') == text
    ensures '\n' !in Rest(text) && forall k :: 0 <= k < |Lines(text)| ==> '\n' !in Lines(text)[k]
  {
    var pieces := Split(text, '\n');
    assert Lines(text) + [Rest(text)] == pieces;
    JoinSplit(text, '\n');
    forall k | 0 <= k < |pieces| ensures '\n' !in pieces[k] {
      PieceAvoidsSeparator(text, '\n', k);
    }
  }

  // ---- what the reply comes to ----

  /** The event a line carries; a line that is no data line, or an empty one, carries none. */
  function EventOf(lib: Library, raw: string): Event {
    var line := lib.trim(raw);
    var payload := if "data:" <= line then lib.trim(line[5..]) else "";
    if payload == "" then Unknown else lib.parse(payload)
  }

  /** All deltas in order. */
  function DeltaText(lib: Library, lines: seq<string>): string {
    if lines == [] then ""
    else
      DeltaText(lib, lines[..|lines| - 1])
      + match EventOf(lib, lines[|lines| - 1])
        case Delta(t) => t
        case _ => ""
  }

  /** The tool of the last tool event, until a result or text follows. */
  function LastNote(lib: Library, was: string, lines: seq<string>): string {
    if lines == [] then was
    else match EventOf(lib, lines[|lines| - 1])
         case ToolUse(n) => n
         case ToolResult => ""
         case Delta(_) => ""
         case _ => LastNote(lib, was, lines[..|lines| - 1])
  }

  /** The last model that a start event names. */
  function LastModel(lib: Library, was: string, lines: seq<string>): string {
    if lines == [] then was
    else match EventOf(lib, lines[|lines| - 1])
         case Start(m, _) => if m != "" then m else LastModel(lib, was, lines[..|lines| - 1])
         case _ => LastModel(lib, was, lines[..|lines| - 1])
  }

  /** The topics of the last start event. */
  function LastTopics(lib: Library, was: seq<string>, lines: seq<string>): seq<string> {
    if lines == [] then was
    else match EventOf(lib, lines[|lines| - 1])
         case Start(_, Titles(ts)) => ts
         case Start(_, NoTopics) => []
         case _ => LastTopics(lib, was, lines[..|lines| - 1])
  }

  /** The last positive cost. */
  function LastCost(lib: Library, was: Option<real>, lines: seq<string>): Option<real> {
    if lines == [] then was
    else match EventOf(lib, lines[|lines| - 1])
         case Finished(Some(c)) => if c > 0.0 then Some(c) else LastCost(lib, was, lines[..|lines| - 1])
         case _ => LastCost(lib, was, lines[..|lines| - 1])
  }

  /** The last error event. */
  function LastFault(lib: Library, was: Fault, lines: seq<string>): Fault {
    if lines == [] then was
    else match EventOf(lib, lines[|lines| - 1])
         case Failed(m) => ReplyFailed(m)
         case _ => LastFault(lib, was, lines[..|lines| - 1])
  }

  function LiveAfter(lib: Library, l: Live, lines: seq<string>): Live {
    Live(l.text + DeltaText(lib, lines), LastNote(lib, l.note, lines), LastModel(lib, l.model, lines),
         LastTopics(lib, l.topics, lines), LastCost(lib, l.cost, lines), LastFault(lib, l.fault, lines))
  }

  lemma {:induction false} LiveIsLast(lib: Library, l: Live, lines: seq<string>)
    requires !HandleLines(lib, l, lines).threw
    ensures HandleLines(lib, l, lines).live == LiveAfter(lib, l, lines)
  {
    if lines != [] {
      LiveIsLast(lib, l, lines[..|lines| - 1]);
    }
  }

  /** A line throws when it holds a JSON null or a start event whose topics cannot be read. */
  predicate Throws(lib: Library, raw: string) {
    var e := EventOf(lib, raw);
    e.Null? || (e.Start? && e.topics.Unreadable?)
  }

  lemma {:induction false} ThrewIff(lib: Library, l: Live, lines: seq<string>)
    ensures HandleLines(lib, l, lines).threw <==> exists k :: 0 <= k < |lines| && Throws(lib, lines[k])
  {
    if lines != [] {
      var front := lines[..|lines| - 1];
      ThrewIff(lib, l, front);
      if k :| 0 <= k < |front| && Throws(lib, front[k]) {
        assert Throws(lib, lines[k]);
      }
    }
  }

  /** Handling stops at the first line that throws; of that line only a model name is kept. */
  lemma ThrownAt(lib: Library, l: Live, lines: seq<string>, k: nat)
    requires k < |lines| && Throws(lib, lines[k]) && forall i :: 0 <= i < k ==> !Throws(lib, lines[i])
    ensures HandleLines(lib, l, lines)
         == var before := LiveAfter(lib, l, lines[..k]);
            Handled(before.(model := LastModel(lib, l.model, lines[..k + 1])), true)
  {
    ThrewIff(lib, l, lines[..k]);
    LiveIsLast(lib, l, lines[..k]);
    assert lines[..k + 1][..k] == lines[..k];
    assert lines == lines[..k + 1] + lines[k + 1..];
    HandleConcat(lib, l, lines[..k + 1], lines[k + 1..]);
  }

  /** Unless a line threw: the reply's text is the start text followed by the deltas of the
      newline-terminated lines in order, and its model, topics, cost, note and error are those of
      the last line that has one, wherever the connection broke. */
  lemma ReplyIsLast(lib: Library, l: Live, text: string, broken: bool)
    requires forall k :: 0 <= k < |Lines(text)| ==> !Throws(lib, Lines(text)[k])
    ensures var r, lines := Reply(lib, l, text, broken), Lines(text);
      && r.text == l.text + DeltaText(lib, lines)
      && r.model == LastModel(lib, l.model, lines)
      && r.topics == LastTopics(lib, l.topics, lines)
      && r.cost == LastCost(lib, l.cost, lines)
      && r.note == LastNote(lib, l.note, lines)
      && r.fault == (if broken then Interrupted else LastFault(lib, l.fault, lines))
  {
    ThrewIff(lib, l, Lines(text));
    LiveIsLast(lib, l, Lines(text));
  }
}
