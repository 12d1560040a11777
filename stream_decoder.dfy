/** The decoder of a streamed chat completion (`parseSSEResponse`): the
    response body, already split into lines, is read line by line; every
    `data: ` line carries one JSON chunk whose first choice extends the
    assistant message being rebuilt. The JSON decoder and the caller's chunk
    callback are parameters. */
module StreamDecoder {
  import opened Wrappers
  import opened GoText
  import opened Ai

  const DataPrefix := "data: "
  const DoneLine := "data: [DONE]"
  const ReadErrorPrefix := "error reading SSE stream: "
  const CompletionObject := "chat.completion"

  /** One fragment of a tool call, addressed by its slot index. */
  datatype ToolCallDelta = ToolCallDelta(index: int, id: string, kind: string, name: string, arguments: string)

  datatype Delta = Delta(role: string, content: string, toolCalls: seq<ToolCallDelta>)

  datatype Choice = Choice(index: int, delta: Delta, finishReason: string)

  /** `OpenAIChatStreamResponse`, as the JSON decoder yields it. */
  datatype Chunk = Chunk(id: string, objectKind: string, created: int, model: string, choices: seq<Choice>)

  /** What one line of the body amounts to: nothing, the end of the stream,
      or a chunk to take in. */
  datatype Step = Skip | Stop | Feed(chunk: Chunk)

  /** The decoder's state between lines: the content built so far, the tool
      calls by slot, the captured response metadata and the role. */
  datatype Acc = Acc(content: string, slots: map<int, ToolCall>, id: string, created: int, model: string, role: string)

  const Init := Acc("", map[], "", 0, "", "")

  /** Why the loop over the lines ended. */
  datatype Ending = Exhausted | Sentinel | Finished | Rejected(error: string)

  /** The state when the loop ended, the partial messages handed to the
      callback, in order, and why it ended. */
  datatype Halt = Halt(acc: Acc, sent: seq<Message>, ending: Ending)

  /** What the caller gets back: the message or the error, and every partial
      message the callback received. */
  datatype Run = Run(result: Result<Message>, sent: seq<Message>)

  /** One line, trimmed of surrounding spaces: blank lines, lines that are
      not `data: ` lines and chunks that do not parse are skipped; the
      `data: [DONE]` line ends the stream. */
  function Classify(raw: string, parse: string -> Option<Chunk>): (step: Step)
    ensures TrimSpace(raw) == "" ==> step == Skip
    ensures step == Stop <==> TrimSpace(raw) == DoneLine
    ensures !HasPrefix(TrimSpace(raw), DataPrefix) ==> step == Skip
    ensures step.Feed? <==>
      && HasPrefix(TrimSpace(raw), DataPrefix) && TrimSpace(raw) != DoneLine
      && parse(TrimPrefix(TrimSpace(raw), DataPrefix)).Some?
    ensures step.Feed? ==> Some(step.chunk) == parse(TrimPrefix(TrimSpace(raw), DataPrefix))
  {
    var line := TrimSpace(raw);
    if line == "" then Skip
    else if line == DoneLine then Stop
    else if !HasPrefix(line, DataPrefix) then Skip
    else match parse(TrimPrefix(line, DataPrefix))
      case None => Skip
      case Some(c) => Feed(c)
  }

  /** One tool-call fragment: a slot seen for the first time takes the
      fragment's id, type and name; a non-empty arguments fragment is
      appended to the slot's arguments. */
  function MergeDelta(slots: map<int, ToolCall>, d: ToolCallDelta): (r: map<int, ToolCall>)
    ensures r.Keys == slots.Keys + {d.index}
    ensures forall j :: j in slots && j != d.index ==> r[j] == slots[j]
    ensures d.index in slots ==>
      r[d.index] == slots[d.index].(args := slots[d.index].args + d.arguments)
    ensures d.index !in slots ==> r[d.index] == ToolCall(d.id, d.kind, d.name, d.arguments)
  {
    var s := if d.index in slots then slots else slots[d.index := ToolCall(d.id, d.kind, d.name, "")];
    if d.arguments != "" then s[d.index := s[d.index].(args := s[d.index].args + d.arguments)] else s
  }

  /** The fragments of one delta, merged in order. */
  function MergeAll(slots: map<int, ToolCall>, ds: seq<ToolCallDelta>): map<int, ToolCall>
    decreases |ds|
  {
    if ds == [] then slots else MergeAll(MergeDelta(slots, ds[0]), ds[1..])
  }

  /** Metadata is copied from every chunk while the captured id is empty. */
  function Capture(a: Acc, c: Chunk): Acc {
    if a.id == "" then a.(id := c.id, created := c.created, model := c.model) else a
  }

  /** The effect of one parsed chunk: metadata capture, then, when it has a
      choice, the first choice's content, tool-call fragments and role. */
  function Absorb(a: Acc, c: Chunk): Acc {
    var m := Capture(a, c);
    if |c.choices| == 0 then m
    else
      var d := c.choices[0].delta;
      m.(content := m.content + d.content,
         slots := MergeAll(m.slots, d.toolCalls),
         role := if d.role != "" && m.role == "" then d.role else m.role)
  }

  /** The slots 0 up to n - 1 that hold a tool call, in ascending order. */
  function Walk(slots: map<int, ToolCall>, n: nat): seq<ToolCall> {
    if n == 0 then [] else Walk(slots, n - 1) + (if n - 1 in slots then [slots[n - 1]] else [])
  }

  /** The map-to-list conversion: it looks at indices 0 up to the number of
      slots, minus one. */
  function SlotList(slots: map<int, ToolCall>): seq<ToolCall> {
    Walk(slots, |slots|)
  }

  /** The partial message handed to the callback. */
  function Partial(a: Acc): Message {
    AIMessage(a.role, a.content, "", SlotList(a.slots), NoResponse)
  }

  /** The message returned at the end of the stream. */
  function Final(a: Acc): Message {
    AIMessage(a.role, a.content, "", SlotList(a.slots), Response(a.id, CompletionObject, a.created, a.model))
  }

  /** The loop over the lines, from state `a` with `sent` already handed to
      the callback. The callback is told how many partials it received
      before this one, so that its answers may vary from call to call. */
  function Drive(a: Acc, sent: seq<Message>, lines: seq<string>,
                 parse: string -> Option<Chunk>, callback: (nat, Message) -> Option<string>): Halt
    decreases |lines|
  {
    if lines == [] then Halt(a, sent, Exhausted)
    else match Classify(lines[0], parse)
      case Skip => Drive(a, sent, lines[1..], parse, callback)
      case Stop => Halt(a, sent, Sentinel)
      case Feed(c) =>
        var b := Absorb(a, c);
        if |c.choices| == 0 then Drive(b, sent, lines[1..], parse, callback)
        else
          var p := Partial(b);
          match callback(|sent|, p)
          case Some(e) => Halt(b, sent + [p], Rejected(e))
          case None =>
            if c.choices[0].finishReason != "" then Halt(b, sent + [p], Finished)
            else Drive(b, sent + [p], lines[1..], parse, callback)
  }

  /** The outcome once the loop ended: the callback's error unchanged; else
      the scanner's error, annotated; else the final message. */
  function Outcome(h: Halt, scanErr: Option<string>): Result<Message> {
    match h.ending
    case Rejected(e) => Err(e)
    case _ =>
      if scanErr.Some? then Err(ReadErrorPrefix + scanErr.value) else Ok(Final(h.acc))
  }

  /** `parseSSEResponse` over the lines the scanner produced; `scanErr` is
      what the scanner reports once the loop ends. */
  function Decode(lines: seq<string>, parse: string -> Option<Chunk>,
                  callback: (nat, Message) -> Option<string>, scanErr: Option<string>): Run
  {
    var h := Drive(Init, [], lines, parse, callback);
    Run(Outcome(h, scanErr), h.sent)
  }

  /** The fragments of one delta merged into the slot map in place. */
  method AccumulateToolCalls(slots: map<int, ToolCall>, ds: seq<ToolCallDelta>) returns (r: map<int, ToolCall>)
    ensures r == MergeAll(slots, ds)
  {
    r := slots;
    var i := 0;
    while i < |ds|
      invariant 0 <= i <= |ds|
      invariant MergeAll(r, ds[i..]) == MergeAll(slots, ds)
    {
      assert ds[i..][1..] == ds[i + 1..];
      var d := ds[i];
      if d.index !in r {
        r := r[d.index := ToolCall(d.id, d.kind, d.name, "")];
      }
      if d.arguments != "" {
        r := r[d.index := r[d.index].(args := r[d.index].args + d.arguments)];
      }
      i := i + 1;
    }
  }

  /** The map-to-list conversion, as a loop over indices 0 up to the
      number of slots, minus one. */
  method CollectToolCalls(slots: map<int, ToolCall>) returns (calls: seq<ToolCall>)
    ensures calls == SlotList(slots)
    ensures |calls| <= |slots|
    ensures forall c :: c in calls ==> exists i :: 0 <= i < |slots| && i in slots && slots[i] == c
  {
    calls := [];
    var i := 0;
    while i < |slots|
      invariant 0 <= i <= |slots|
      invariant calls == Walk(slots, i)
      invariant |calls| <= i
      invariant forall c :: c in calls ==> exists j :: 0 <= j < i && j in slots && slots[j] == c
    {
      if i in slots {
        calls := calls + [slots[i]];
      }
      i := i + 1;
    }
  }

  /** One step of `Drive` over a line that is skipped. */
  lemma SkipLine(a: Acc, sent: seq<Message>, lines: seq<string>, i: nat,
                 parse: string -> Option<Chunk>, callback: (nat, Message) -> Option<string>)
    requires i < |lines| && Classify(lines[i], parse) == Skip
    ensures Drive(a, sent, lines[i..], parse, callback) == Drive(a, sent, lines[i + 1..], parse, callback)
  {
    assert lines[i..][0] == lines[i] && lines[i..][1..] == lines[i + 1..];
  }

  /** One step of `Drive` over the `data: [DONE]` line. */
  lemma StopLine(a: Acc, sent: seq<Message>, lines: seq<string>, i: nat,
                 parse: string -> Option<Chunk>, callback: (nat, Message) -> Option<string>)
    requires i < |lines| && Classify(lines[i], parse) == Stop
    ensures Drive(a, sent, lines[i..], parse, callback) == Halt(a, sent, Sentinel)
  {
    assert lines[i..][0] == lines[i];
  }

  /** One step of `Drive` over a line that carries chunk `c`. */
  lemma FeedLine(a: Acc, sent: seq<Message>, lines: seq<string>, i: nat, c: Chunk,
                 parse: string -> Option<Chunk>, callback: (nat, Message) -> Option<string>)
    requires i < |lines| && Classify(lines[i], parse) == Feed(c)
    ensures var b := Absorb(a, c);
      Drive(a, sent, lines[i..], parse, callback)
      == if |c.choices| == 0 then Drive(b, sent, lines[i + 1..], parse, callback)
         else match callback(|sent|, Partial(b))
           case Some(e) => Halt(b, sent + [Partial(b)], Rejected(e))
           case None =>
             if c.choices[0].finishReason != "" then Halt(b, sent + [Partial(b)], Finished)
             else Drive(b, sent + [Partial(b)], lines[i + 1..], parse, callback)
  {
    assert lines[i..][0] == lines[i] && lines[i..][1..] == lines[i + 1..];
  }

  /** The tests one scanned line goes through: trimmed, blank skipped,
      the sentinel recognised, non-data lines skipped, the payload handed to
      the JSON decoder and a failure to parse skipped. */
  method ReadLine(raw: string, parse: string -> Option<Chunk>) returns (step: Step)
    ensures step == Classify(raw, parse)
  {
    var line := TrimSpace(raw);
    if line == "" {
      return Skip;
    }
    if line == DoneLine {
      return Stop;
    }
    if !HasPrefix(line, DataPrefix) {
      return Skip;
    }
    var jsonData := TrimPrefix(line, DataPrefix);
    var parsed := parse(jsonData);
    if parsed.None? {
      return Skip;
    }
    return Feed(parsed.value);
  }

  /** `parseSSEResponse`: the scanner loop with its early exits, over the
      decoder's state (content buffer, slot map, captured metadata, role),
      checked against `Decode`. */
  method ParseSSEResponse(lines: seq<string>, parse: string -> Option<Chunk>,
                          callback: (nat, Message) -> Option<string>, scanErr: Option<string>)
    returns (res: Result<Message>, sent: seq<Message>)
    ensures Run(res, sent) == Decode(lines, parse, callback, scanErr)
  {
    var acc := Init;
    sent := [];
    ghost var ending := Exhausted;
    ghost var h := Drive(Init, [], lines, parse, callback);
    var i := 0;
    while i < |lines|
      invariant 0 <= i <= |lines|
      invariant ending == Exhausted
      invariant h == Drive(acc, sent, lines[i..], parse, callback)
      decreases |lines| - i
    {
      var step := ReadLine(lines[i], parse);
      i := i + 1;
      if step.Skip? {
        SkipLine(acc, sent, lines, i - 1, parse, callback);
        continue;
      }
      if step.Stop? {
        StopLine(acc, sent, lines, i - 1, parse, callback);
        ending := Sentinel;
        break;
      }
      var chunk := step.chunk;
      FeedLine(acc, sent, lines, i - 1, chunk, parse, callback);
      acc := TakeChunk(acc, chunk);
      if |chunk.choices| > 0 {
        var toolCalls := CollectToolCalls(acc.slots);
        var partial := AIMessage(acc.role, acc.content, "", toolCalls, NoResponse);
        var err := callback(|sent|, partial);
        sent := sent + [partial];
        if err.Some? {
          return Err(err.value), sent;
        }
        if chunk.choices[0].finishReason != "" {
          ending := Finished;
          break;
        }
      }
    }
    assert h == Halt(acc, sent, ending);
    if scanErr.Some? {
      return Err(ReadErrorPrefix + scanErr.value), sent;
    }
    var finalCalls := CollectToolCalls(acc.slots);
    res := Ok(AIMessage(acc.role, acc.content, "", finalCalls, Response(acc.id, CompletionObject, acc.created, acc.model)));
  }

  /** The body of the loop for one parsed chunk: metadata captured while
      the id is empty; then, for a chunk with a choice, the first choice's
      content appended, its tool-call fragments merged and its role taken if
      none was set yet. */
  method TakeChunk(a: Acc, chunk: Chunk) returns (b: Acc)
    ensures b == Absorb(a, chunk)
  {
    b := a;
    if b.id == "" {
      b := b.(id := chunk.id, created := chunk.created, model := chunk.model);
    }
    if |chunk.choices| > 0 {
      var choice := chunk.choices[0];
      if choice.delta.content != "" {
        b := b.(content := b.content + choice.delta.content);
      }
      if |choice.delta.toolCalls| > 0 {
        var slots := AccumulateToolCalls(b.slots, choice.delta.toolCalls);
        b := b.(slots := slots);
      }
      if choice.delta.role != "" && b.role == "" {
        b := b.(role := choice.delta.role);
      }
    }
  }
}
