/**
 Reassembling a proxied model stream: text chunks into lines, lines into events, events into content
 blocks. Parsing a line's JSON is a parameter.
 */
module Proxy {
  import opened Wrappers

  // ---------------------------------------------------------------------------
  // Chunks into lines
  // ---------------------------------------------------------------------------

  function Concat(chunks: seq<string>): string {
    if chunks == [] then "" else Concat(chunks[..|chunks| - 1]) + chunks[|chunks| - 1]
  }

  /** The lines of a text that a newline ends, and what follows the last newline. */
  function Split(text: string): (r: (seq<string>, string))
    ensures '\n' !in r.1
  {
    if text == "" then ([], "")
    else
      var (lines, rest) := Split(text[..|text| - 1]);
      var c := text[|text| - 1];
      if c == '\n' then (lines + [rest], "") else (lines, rest + [c])
  }

  /** What is left over carries into the next chunk: splitting piecewise is splitting at once. */
  lemma {:induction false} SplitOn(a: string, b: string)
    ensures Split(a + b) == (Split(a).0 + Split(Split(a).1 + b).0, Split(Split(a).1 + b).1)
    decreases |b|
  {
    if b == "" {
      assert a + b == a;
      SplitRest(Split(a).1);
      assert Split(a).1 + "" == Split(a).1 && Split(a).0 + [] == Split(a).0;
    } else {
      var front, c := b[..|b| - 1], b[|b| - 1];
      SplitOn(a, front);
      assert (a + b)[..|a + b| - 1] == a + front;
      assert (Split(a).1 + b)[..|Split(a).1 + b| - 1] == Split(a).1 + front;
      var (lines, rest) := Split(Split(a).1 + front);
      assert Split(a).0 + (lines + [rest]) == Split(a).0 + lines + [rest];
    }
  }

  lemma {:induction false} SplitRest(text: string)
    requires '\n' !in text
    ensures Split(text) == ([], text)
  {
    if text != "" {
      SplitRest(text[..|text| - 1]);
      assert text == text[..|text| - 1] + [text[|text| - 1]];
    }
  }

  /** The lines that are processed: the complete ones, and the rest if there is any. */
  function LinesOf(text: string): seq<string> {
    var (lines, rest) := Split(text);
    lines + if rest != "" then [rest] else []
  }

  // ---------------------------------------------------------------------------
  // Events into blocks
  // ---------------------------------------------------------------------------

  datatype ProxyEvent =
    | Start
    | TextStart(index: nat)
    | TextDelta(index: nat, delta: string)
    | TextEnd(index: nat)
    | ThinkingStart(index: nat)
    | ThinkingDelta(index: nat, delta: string)
    | ThinkingEnd(index: nat)
    | ToolCallStart(index: nat)
    | ToolCallDelta(index: nat, delta: string)
    | ToolCallEnd(index: nat)
    | Done
    | ServerError
    | Unknown

  /** A content block; the partial JSON of a tool call is gone once the call has ended. */
  datatype Block = Text(text: string) | Thinking(text: string) | ToolCall(json: Option<string>)

  /** An event of the resulting stream, with the block it shows. */
  datatype OutEvent = Passed(event: ProxyEvent, block: Option<Block>) | Thrown(aborted: bool) | Dropped

  predicate Terminal(e: OutEvent) {
    e.Thrown? || e.Dropped? || (e.Passed? && (e.event.Done? || e.event.ServerError?))
  }

  type Content = map<nat, Block>

  /** processProxyEvent: the new content and the event to push, unless it throws. */
  function Process(content: Content, e: ProxyEvent): Option<(Content, Option<OutEvent>)> {
    match e
    case Start => Some((content, Some(Passed(e, None))))
    case TextStart(i) => Put(content, e, i, Text(""))
    case TextDelta(i, d) =>
      if i in content && content[i].Text? then Put(content, e, i, Text(content[i].text + d)) else None
    case TextEnd(i) => if i in content && content[i].Text? then Put(content, e, i, content[i]) else None
    case ThinkingStart(i) => Put(content, e, i, Thinking(""))
    case ThinkingDelta(i, d) =>
      if i in content && content[i].Thinking? then Put(content, e, i, Thinking(content[i].text + d)) else None
    case ThinkingEnd(i) => if i in content && content[i].Thinking? then Put(content, e, i, content[i]) else None
    case ToolCallStart(i) => Put(content, e, i, ToolCall(Some("")))
    case ToolCallDelta(i, d) =>
      if i in content && content[i].ToolCall? then
        Put(content, e, i, ToolCall(Some((if content[i].json.Some? then content[i].json.value else "undefined") + d)))
      else None
    case ToolCallEnd(i) =>
      if i in content && content[i].ToolCall? then Put(content, e, i, ToolCall(None)) else Some((content, None))
    case Done => Some((content, Some(Passed(e, None))))
    case ServerError => Some((content, Some(Passed(e, None))))
    case Unknown => Some((content, None))
  }

  function Put(content: Content, e: ProxyEvent, i: nat, block: Block): Option<(Content, Option<OutEvent>)> {
    Some((content[i := block], Some(Passed(e, Some(block)))))
  }

  /** What has been streamed so far; `thrown` once a line could not be processed. */
  datatype Progress = Progress(content: Content, out: seq<OutEvent>, thrown: bool)

  predicate IsSpace(c: char) { c == ' ' || 9 <= c as int <= 13 }

  function Trim(s: string): string {
    if s != "" && IsSpace(s[0]) then Trim(s[1..])
    else if s != "" && IsSpace(s[|s| - 1]) then Trim(s[..|s| - 1])
    else s
  }

  const PREFIX := "data: "

  /** The event of a line, if it carries one; JSON that does not parse throws. */
  function EventOf(line: string, parse: string -> Option<ProxyEvent>): Option<Option<ProxyEvent>> {
    if !(PREFIX <= line) || Trim(line[6..]) == "" then Some(None)
    else
      var e := parse(Trim(line[6..]));
      if e.Some? then Some(e) else None
  }

  /** processLine. */
  function ProcessLine(p: Progress, line: string, parse: string -> Option<ProxyEvent>): Progress {
    if p.thrown then p
    else match EventOf(line, parse)
      case None => p.(thrown := true)
      case Some(None) => p
      case Some(Some(e)) =>
        match Process(p.content, e)
        case None => p.(thrown := true)
        case Some((content, out)) => p.(content := content, out := p.out + if out.Some? then [out.value] else [])
  }

  function ProcessLines(p: Progress, lines: seq<string>, parse: string -> Option<ProxyEvent>): Progress {
    if lines == [] then p else ProcessLine(ProcessLines(p, lines[..|lines| - 1], parse), lines[|lines| - 1], parse)
  }

  lemma {:induction false} ProcessMore(p: Progress, a: seq<string>, b: seq<string>, parse: string -> Option<ProxyEvent>)
    ensures ProcessLines(p, a + b, parse) == ProcessLines(ProcessLines(p, a, parse), b, parse)
  {
    if b == [] {
      assert a + b == a;
    } else {
      ProcessMore(p, a, b[..|b| - 1], parse);
      assert (a + b)[..|a + b| - 1] == a + b[..|b| - 1];
    }
  }

  lemma {:induction false} ThrownStays(p: Progress, lines: seq<string>, parse: string -> Option<ProxyEvent>)
    requires p.thrown
    ensures ProcessLines(p, lines, parse) == p
  {
    if lines != [] { ThrownStays(p, lines[..|lines| - 1], parse); }
  }

  function SawTerminal(out: seq<OutEvent>): bool { exists i :: 0 <= i < |out| && Terminal(out[i]) }

  const Fresh := Progress(map[], [], false)

  /** What is pushed for some text: the events of its lines, and an error if they throw or never end the message. */
  function StreamOf(text: string, parse: string -> Option<ProxyEvent>): seq<OutEvent> {
    var p := ProcessLines(Fresh, LinesOf(text), parse);
    if p.thrown then p.out + [Thrown(false)] else if SawTerminal(p.out) then p.out else p.out + [Dropped]
  }

  /** One chunk: complete lines are processed at once, the rest is kept. */
  method ReadChunk(p: Progress, buffer: string, chunk: string, parse: string -> Option<ProxyEvent>)
    returns (p': Progress, buffer': string)
    requires !p.thrown
    ensures p' == ProcessLines(p, Split(buffer + chunk).0, parse) && buffer' == Split(buffer + chunk).1
  {
    var (lines, rest) := Split(buffer + chunk);
    p', buffer' := p, rest;
    for i := 0 to |lines|
      invariant p' == ProcessLines(p, lines[..i], parse)
    {
      assert lines[..i + 1][..i] == lines[..i];
      p' := ProcessLine(p', lines[i], parse);
    }
    assert lines[..|lines|] == lines;
  }

  /**
   The reading loop of streamProxy, for a response that comes in some chunks and a signal that is found
   aborted after `abortedAt` of them, if ever. Without an abort, what is pushed does not depend on the
   chunking; with one it is what the complete lines until then give, and an error.
   */
  method StreamProxy(chunks: seq<string>, abortedAt: nat, parse: string -> Option<ProxyEvent>)
    returns (out: seq<OutEvent>)
    ensures abortedAt > |chunks| ==> out == StreamOf(Concat(chunks), parse)
    ensures abortedAt <= |chunks| ==>
              var p := ProcessLines(Fresh, Split(Concat(chunks[..abortedAt])).0, parse);
              out == p.out + [Thrown(!p.thrown)]
  {
    var p, buffer := Fresh, "";
    for i := 0 to |chunks|
      invariant i <= abortedAt && !p.thrown
      invariant p == ProcessLines(Fresh, Split(Concat(chunks[..i])).0, parse) && buffer == Split(Concat(chunks[..i])).1
    {
      if i == abortedAt { return p.out + [Thrown(true)]; }
      var before := Concat(chunks[..i]);
      assert chunks[..i + 1][..i] == chunks[..i];
      SplitOn(before, chunks[i]);
      ProcessMore(Fresh, Split(before).0, Split(buffer + chunks[i]).0, parse);
      p, buffer := ReadChunk(p, buffer, chunks[i], parse);
      if p.thrown {
        ThrowsOn(chunks, i + 1, abortedAt, parse);
        return p.out + [Thrown(false)];
      }
    }
    assert chunks[..|chunks|] == chunks;
    if abortedAt == |chunks| { return p.out + [Thrown(true)]; }
    if buffer != "" {
      var lines := Split(Concat(chunks)).0;
      assert (lines + [buffer])[..|lines|] == lines;
      p := ProcessLine(p, buffer, parse);
    } else {
      assert Split(Concat(chunks)).0 + [] == Split(Concat(chunks)).0;
    }
    if p.thrown { return p.out + [Thrown(false)]; }
    out := p.out;
    if !SawTerminal(p.out) { out := out + [Dropped]; }
  }

  /** Once the lines of some chunks have thrown, later chunks change nothing. */
  lemma ThrowsOn(chunks: seq<string>, i: nat, abortedAt: nat, parse: string -> Option<ProxyEvent>)
    requires i <= |chunks| && i <= abortedAt
    requires ProcessLines(Fresh, Split(Concat(chunks[..i])).0, parse).thrown
    ensures abortedAt > |chunks| ==>
              ProcessLines(Fresh, LinesOf(Concat(chunks)), parse) ==
                  ProcessLines(Fresh, Split(Concat(chunks[..i])).0, parse)
    ensures abortedAt <= |chunks| ==>
              ProcessLines(Fresh, Split(Concat(chunks[..abortedAt])).0, parse) ==
                  ProcessLines(Fresh, Split(Concat(chunks[..i])).0, parse)
  {
    var to := if abortedAt <= |chunks| then abortedAt else |chunks|;
    var lines := Split(Concat(chunks[..i])).0;
    var more := LinesGrow(chunks, i, to);
    ProcessMore(Fresh, lines, more, parse);
    ThrownStays(ProcessLines(Fresh, lines, parse), more, parse);
    if abortedAt > |chunks| {
      assert chunks[..|chunks|] == chunks;
      var rest := Split(Concat(chunks)).1;
      var last := if rest != "" then [rest] else [];
      ProcessMore(Fresh, lines + more, last, parse);
      ThrownStays(ProcessLines(Fresh, lines, parse), last, parse);
    }
  }

  lemma {:induction false} LinesGrow(chunks: seq<string>, i: nat, to: nat) returns (more: seq<string>)
    requires i <= to <= |chunks|
    ensures Split(Concat(chunks[..to])).0 == Split(Concat(chunks[..i])).0 + more
  {
    more := [];
    if i < to {
      var before := LinesGrow(chunks, i, to - 1);
      assert chunks[..to][..to - 1] == chunks[..to - 1];
      SplitOn(Concat(chunks[..to - 1]), chunks[to - 1]);
      more := before + Split(Split(Concat(chunks[..to - 1])).1 + chunks[to - 1]).0;
    }
  }

  /**
   Without exceptions or abort the stream ends its message: with the server's own terminal events, or with
   exactly one error of its own.
   */
  lemma EndsOnce(text: string, parse: string -> Option<ProxyEvent>)
    requires !ProcessLines(Fresh, LinesOf(text), parse).thrown
    ensures var p, out := ProcessLines(Fresh, LinesOf(text), parse), StreamOf(text, parse);
            if SawTerminal(p.out) then out == p.out && Dropped !in out
            else out == p.out + [Dropped] && forall i :: 0 <= i < |p.out| ==> !Terminal(out[i])
  {
    OnlyPassed(LinesOf(text), parse);
  }

  lemma {:induction false} OnlyPassed(lines: seq<string>, parse: string -> Option<ProxyEvent>)
    ensures forall e :: e in ProcessLines(Fresh, lines, parse).out ==> e.Passed?
  {
    if lines != [] { OnlyPassed(lines[..|lines| - 1], parse); }
  }

  // ---------------------------------------------------------------------------
  // Blocks are the sums of their deltas
  // ---------------------------------------------------------------------------

  function ProcessAll(events: seq<ProxyEvent>): Option<Content> {
    if events == [] then Some(map[])
    else
      var before := ProcessAll(events[..|events| - 1]);
      if before.None? then None
      else
        var r := Process(before.value, events[|events| - 1]);
        if r.None? then None else Some(r.value.0)
  }

  /** The text and thinking deltas of one index since a block last started there. */
  function DeltasSince(events: seq<ProxyEvent>, index: nat): string {
    if events == [] then ""
    else
      var before := DeltasSince(events[..|events| - 1], index);
      match events[|events| - 1]
      case TextStart(i) => if i == index then "" else before
      case ThinkingStart(i) => if i == index then "" else before
      case TextDelta(i, d) => if i == index then before + d else before
      case ThinkingDelta(i, d) => if i == index then before + d else before
      case _ => before
  }

  /** Which kind of block last started at an index. */
  function LastStart(events: seq<ProxyEvent>, index: nat): Option<ProxyEvent> {
    if events == [] then None
    else
      var e := events[|events| - 1];
      if e == TextStart(index) || e == ThinkingStart(index) || e == ToolCallStart(index) then Some(e)
      else LastStart(events[..|events| - 1], index)
  }

  /**
   However the indices interleave, a text or thinking block holds exactly the deltas received for its
   index since it last started, and it is of the kind that last started there.
   */
  lemma {:induction false} BlocksAreSums(events: seq<ProxyEvent>, index: nat)
    requires ProcessAll(events).Some?
    ensures var content := ProcessAll(events).value;
            && (LastStart(events, index) == Some(TextStart(index)) <==> index in content && content[index].Text?)
            && (LastStart(events, index) == Some(ThinkingStart(index)) <==>
               index in content && content[index].Thinking?)
            && (LastStart(events, index) == Some(ToolCallStart(index)) <==>
               index in content && content[index].ToolCall?)
            && (index in content && !content[index].ToolCall? ==> content[index].text == DeltasSince(events, index))
  {
    if events != [] {
      BlocksAreSums(events[..|events| - 1], index);
    }
  }

  // ---------------------------------------------------------------------------
  // What the stream shows
  // ---------------------------------------------------------------------------

  /** The events that the lines carry, up to the first line that throws. */
  function Handled(lines: seq<string>, parse: string -> Option<ProxyEvent>): seq<ProxyEvent> {
    if lines == [] then []
    else
      var front, p := lines[..|lines| - 1], ProcessLines(Fresh, lines[..|lines| - 1], parse);
      match EventOf(lines[|lines| - 1], parse)
      case Some(Some(e)) => Handled(front, parse) + if !p.thrown && Process(p.content, e).Some? then [e] else []
      case _ => Handled(front, parse)
  }

  /** The events that are pushed for them. */
  function Pushed(events: seq<ProxyEvent>): seq<OutEvent>
    requires ProcessAll(events).Some?
  {
    if events == [] then []
    else
      var front := events[..|events| - 1];
      var out := Process(ProcessAll(front).value, events[|events| - 1]).value.1;
      Pushed(front) + if out.Some? then [out.value] else []
  }

  lemma {:induction false} LinesAreEvents(lines: seq<string>, parse: string -> Option<ProxyEvent>)
    ensures Reaches(Handled(lines, parse), ProcessLines(Fresh, lines, parse))
    decreases |lines|
  {
    if lines == [] {
      assert Handled(lines, parse) == [] && ProcessLines(Fresh, lines, parse) == Fresh;
    } else {
      hide *;
      LinesAreEvents(lines[..|lines| - 1], parse);
      LineAdds(lines, parse);
    }
  }

  lemma LineAdds(lines: seq<string>, parse: string -> Option<ProxyEvent>)
    requires lines != [] && Reaches(Handled(lines[..|lines| - 1], parse),
             ProcessLines(Fresh, lines[..|lines| - 1], parse))
    ensures Reaches(Handled(lines, parse), ProcessLines(Fresh, lines, parse))
  {
    hide EventOf, Process, ProcessAll, Pushed;
    var front, last := lines[..|lines| - 1], lines[|lines| - 1];
    var events, p := Handled(front, parse), ProcessLines(Fresh, front, parse);
    assert events + [] == events;
    var e := EventOf(last, parse);
    if e.Some? && e.value.Some? { EventAdds(events, p, e.value.value); }
  }

  /** The events lead to the content and to the pushed events. */
  ghost predicate Reaches(events: seq<ProxyEvent>, p: Progress) {
    ProcessAll(events) == Some(p.content) && Pushed(events) == p.out
  }

  lemma EventAdds(events: seq<ProxyEvent>, p: Progress, e: ProxyEvent)
    requires Reaches(events, p)
    ensures match Process(p.content, e)
            case None => Reaches(events, p.(thrown := true))
            case Some((content, out)) =>
              Reaches(events + [e], p.(content := content, out := p.out + if out.Some? then [out.value] else []))
  {
    assert (events + [e])[..|events|] == events;
  }

  /** The index an event is about. */
  function IndexOf(e: ProxyEvent): nat {
    match e
    case TextStart(i) => i
    case TextDelta(i, _) => i
    case TextEnd(i) => i
    case ThinkingStart(i) => i
    case ThinkingDelta(i, _) => i
    case ThinkingEnd(i) => i
    case ToolCallStart(i) => i
    case ToolCallDelta(i, _) => i
    case ToolCallEnd(i) => i
    case _ => 0
  }

  /** An event shows the deltas of its index, up to itself, since a block last started there. */
  predicate Shows(o: OutEvent, events: seq<ProxyEvent>) {
    o.Passed? && events != [] && events[|events| - 1] == o.event
    && (o.block.Some? && !o.block.value.ToolCall? ==> o.block.value.text == DeltasSince(events, IndexOf(o.event)))
  }

  lemma {:induction false} PushedShow(events: seq<ProxyEvent>, j: nat) returns (n: nat)
    requires ProcessAll(events).Some? && j < |Pushed(events)|
    ensures n <= |events| && Shows(Pushed(events)[j], events[..n])
  {
    var front := events[..|events| - 1];
    if j < |Pushed(front)| {
      n := PushedShow(front, j);
      assert front[..n] == events[..n];
    } else {
      n := |events|;
      assert events[..n] == events;
      BlocksAreSums(events, IndexOf(events[|events| - 1]));
      hide DeltasSince, LastStart;
    }
  }

  /**
   Of every event of the stream that shows a text or thinking block: the block is the sum of the
   deltas, among the events received up to then, for its index since a block last started there.
   */
  lemma StreamShowsSums(text: string, parse: string -> Option<ProxyEvent>, j: nat) returns (n: nat)
    requires j < |StreamOf(text, parse)| && StreamOf(text, parse)[j].Passed?
    ensures n <= |Handled(LinesOf(text), parse)| && Shows(StreamOf(text, parse)[j], Handled(LinesOf(text), parse)[..n])
  {
    LinesAreEvents(LinesOf(text), parse);
    n := PushedShow(Handled(LinesOf(text), parse), j);
    hide Handled, Pushed, ProcessLines, LinesOf, Shows;
  }

  // ---------------------------------------------------------------------------
  // What is accepted, and what is pushed
  // ---------------------------------------------------------------------------

  /** A delta or an end for an index at which no block of its kind started last; only a tool call may end so. */
  predicate Misplaced(e: ProxyEvent, last: Option<ProxyEvent>) {
    match e
    case TextDelta(i, _) => last != Some(TextStart(i))
    case TextEnd(i) => last != Some(TextStart(i))
    case ThinkingDelta(i, _) => last != Some(ThinkingStart(i))
    case ThinkingEnd(i) => last != Some(ThinkingStart(i))
    case ToolCallDelta(i, _) => last != Some(ToolCallStart(i))
    case _ => false
  }

  /** An event throws exactly if it is misplaced. */
  lemma ThrowsExactly(events: seq<ProxyEvent>, e: ProxyEvent)
    requires ProcessAll(events).Some?
    ensures ProcessAll(events + [e]).None? <==> Misplaced(e, LastStart(events, IndexOf(e)))
  {
    assert (events + [e])[..|events|] == events;
    BlocksAreSums(events, IndexOf(e));
    hide LastStart, DeltasSince;
  }

  /** Events that say nothing: unknown ones, and the end of a tool call that is none. */
  predicate Silent(e: ProxyEvent, last: Option<ProxyEvent>) {
    e.Unknown? || (e.ToolCallEnd? && last != Some(ToolCallStart(e.index)))
  }

  /** Events that are about no block. */
  predicate Plain(e: ProxyEvent) { e.Start? || e.Done? || e.ServerError? || e.Unknown? }

  /** Every other event is pushed, once and in its turn, with the block that it leaves at its index. */
  lemma PushesExactly(events: seq<ProxyEvent>, e: ProxyEvent)
    requires ProcessAll(events + [e]).Some?
    ensures ProcessAll(events).Some?
    ensures var content := ProcessAll(events + [e]).value;
            Pushed(events + [e]) == Pushed(events) +
              if Silent(e, LastStart(events, IndexOf(e))) then []
              else [Passed(e, if Plain(e) || IndexOf(e) !in content then None else Some(content[IndexOf(e)]))]
    ensures !Plain(e) && !Silent(e, LastStart(events, IndexOf(e))) ==> IndexOf(e) in ProcessAll(events + [e]).value
  {
    assert (events + [e])[..|events|] == events;
    BlocksAreSums(events, IndexOf(e));
    hide LastStart, DeltasSince;
  }

  /** The tool call deltas of one index since a tool call last started there, and whether it has not ended since. */
  function CallSince(events: seq<ProxyEvent>, index: nat): (string, bool) {
    if events == [] then ("", false)
    else
      var before := CallSince(events[..|events| - 1], index);
      match events[|events| - 1]
      case ToolCallStart(i) => if i == index then ("", true) else before
      case ToolCallDelta(i, d) => if i == index then (before.0 + d, before.1) else before
      case ToolCallEnd(i) => if i == index then (before.0, false) else before
      case _ => before
  }

  /** The partial JSON of a tool call that has not ended is the sum of its deltas. */
  lemma {:induction false} CallsAreSums(events: seq<ProxyEvent>, index: nat)
    requires ProcessAll(events).Some?
    ensures var content, call := ProcessAll(events).value, CallSince(events, index);
            index in content && content[index].ToolCall? && call.1 ==> content[index].json == Some(call.0)
  {
    if events != [] { CallsAreSums(events[..|events| - 1], index); }
  }

  // ---------------------------------------------------------------------------
  // From the server's events to the stream
  // ---------------------------------------------------------------------------

  /** A text that is one line and keeps its ends when trimmed. */
  predicate Neat(json: string) {
    json != "" && !IsSpace(json[0]) && !IsSpace(json[|json| - 1]) && '\n' !in json
  }

  /** A body of the server: one line for each event. */
  function Encoded(jsons: seq<string>): string {
    if jsons == [] then "" else Encoded(jsons[..|jsons| - 1]) + (PREFIX + jsons[|jsons| - 1] + "\n")
  }

  function DataLines(jsons: seq<string>): seq<string> {
    seq(|jsons|, i requires 0 <= i < |jsons| => PREFIX + jsons[i])
  }

  lemma {:induction false} EncodedSplits(jsons: seq<string>)
    requires forall k :: 0 <= k < |jsons| ==> Neat(jsons[k])
    ensures Split(Encoded(jsons)) == (DataLines(jsons), "")
  {
    if jsons == [] {
      assert Split("") == ([], "") && DataLines(jsons) == [];
    } else {
      var front, last := jsons[..|jsons| - 1], jsons[|jsons| - 1];
      EncodedSplits(front);
      NoNewline(last);
      var line := PREFIX + last;
      hide Split;
      SplitOn(Encoded(front), line + "\n");
      assert "" + (line + "\n") == line + "\n";
      SplitLine(line);
      DataLinesOn(jsons);
      hide DataLines;
    }
  }

  lemma NoNewline(json: string)
    requires '\n' !in json
    ensures '\n' !in PREFIX + json
  {
  }

  lemma SplitLine(line: string)
    requires '\n' !in line
    ensures Split(line + "\n") == ([line], "")
  {
    var text := line + "\n";
    assert text[..|text| - 1] == line && text[|text| - 1] == '\n';
    SplitRest(line);
    var none: seq<string> := [];
    assert none + [line] == [line];
  }

  lemma DataLinesOn(jsons: seq<string>)
    requires jsons != []
    ensures DataLines(jsons) == DataLines(jsons[..|jsons| - 1]) + [PREFIX + jsons[|jsons| - 1]]
  {
  }

  /** The line of an event carries it. */
  lemma LineCarries(json: string, parse: string -> Option<ProxyEvent>)
    requires Neat(json) && parse(json).Some?
    ensures EventOf(PREFIX + json, parse) == Some(parse(json))
  {
    assert (PREFIX + json)[6..] == json && Trim(json) == json;
  }

  /** A line that is not a data line, or a blank one, carries nothing. */
  lemma OtherLines(line: string, parse: string -> Option<ProxyEvent>)
    requires !(PREFIX <= line) || forall c :: c in line[6..] ==> IsSpace(c)
    ensures EventOf(line, parse) == Some(None)
  {
    if PREFIX <= line { BlankTrims(line[6..]); }
  }

  lemma {:induction false} BlankTrims(s: string)
    requires forall c :: c in s ==> IsSpace(c)
    ensures Trim(s) == ""
  {
    if s != "" {
      assert s[0] in s;
      BlankTrims(s[1..]);
    }
  }

  lemma {:induction false} LinesAreProcessed(jsons: seq<string>, events: seq<ProxyEvent>,
                                             parse: string -> Option<ProxyEvent>)
    requires |jsons| == |events|
             && forall k :: 0 <= k < |jsons| ==> Neat(jsons[k]) && parse(jsons[k]) == Some(events[k])
    requires ProcessAll(events).Some?
    ensures ProcessLines(Fresh, DataLines(jsons), parse) == Progress(ProcessAll(events).value, Pushed(events), false)
  {
    if jsons != [] {
      var n := |jsons| - 1;
      LinesAreProcessed(jsons[..n], events[..n], parse);
      assert DataLines(jsons)[..n] == DataLines(jsons[..n]);
      LineCarries(jsons[n], parse);
      hide EventOf, Process, Trim;
    }
  }

  /**
   What a server sends as one data line for each of its events, the client pushes, in order and whatever the
   chunks, unless one of them is misplaced; if none of them is terminal an error follows.
   */
  lemma StreamRoundTrip(jsons: seq<string>, events: seq<ProxyEvent>, parse: string -> Option<ProxyEvent>)
    requires |jsons| == |events|
             && forall k :: 0 <= k < |jsons| ==> Neat(jsons[k]) && parse(jsons[k]) == Some(events[k])
    requires ProcessAll(events).Some?
    ensures StreamOf(Encoded(jsons), parse) ==
            Pushed(events) + if SawTerminal(Pushed(events)) then [] else [Dropped]
  {
    EncodedSplits(jsons);
    LinesAreProcessed(jsons, events, parse);
    assert LinesOf(Encoded(jsons)) == DataLines(jsons);
    hide Pushed, ProcessLines, SawTerminal;
  }
}
