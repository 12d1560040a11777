/** What the stream decoder computes, stated without its loop: the chunks
    the lines carry, the prefix of them that is taken in before a choice
    halts the stream, the assistant message they add up to, and the partial
    messages the callback receives. */
module StreamSpec {
  import opened Wrappers
  import opened GoText
  import opened Ai
  import opened StreamDecoder

  // ---------------------------------------------------------------------
  // From lines to chunks

  /** The chunks carried by the lines before the first `data: [DONE]`
      line, in order; skipped lines carry none. */
  function Fed(lines: seq<string>, parse: string -> Option<Chunk>): seq<Chunk>
    decreases |lines|
  {
    if lines == [] then []
    else match Classify(lines[0], parse)
      case Skip => Fed(lines[1..], parse)
      case Stop => []
      case Feed(c) => [c] + Fed(lines[1..], parse)
  }

  /** Some line is the `data: [DONE]` line. */
  predicate Stopped(lines: seq<string>, parse: string -> Option<Chunk>)
    decreases |lines|
  {
    lines != [] && (Classify(lines[0], parse) == Stop || Stopped(lines[1..], parse))
  }

  // ---------------------------------------------------------------------
  // Folds over chunks

  /** The state after taking in `cs`, last chunk last. */
  function AbsorbAll(a: Acc, cs: seq<Chunk>): Acc
    decreases |cs|
  {
    if cs == [] then a else Absorb(AbsorbAll(a, cs[..|cs| - 1]), cs[|cs| - 1])
  }

  /** The content fragments of the chunks that have a choice, in order. */
  function Contents(cs: seq<Chunk>): string
    decreases |cs|
  {
    if cs == [] then []
    else Contents(cs[..|cs| - 1]) + (var c := cs[|cs| - 1]; if |c.choices| > 0 then c.choices[0].delta.content else "")
  }

  /** The tool-call fragments of the chunks that have a choice, in order. */
  function Deltas(cs: seq<Chunk>): seq<ToolCallDelta>
    decreases |cs|
  {
    if cs == [] then []
    else Deltas(cs[..|cs| - 1]) + (var c := cs[|cs| - 1]; if |c.choices| > 0 then c.choices[0].delta.toolCalls else [])
  }

  /** How many of the chunks have a choice. */
  function Counted(cs: seq<Chunk>): nat
    decreases |cs|
  {
    if cs == [] then 0 else Counted(cs[..|cs| - 1]) + (if |cs[|cs| - 1].choices| > 0 then 1 else 0)
  }

  /** The partial messages due for `cs`: after each chunk with a choice,
      the message built from the chunks up to and including it. */
  function Emitted(cs: seq<Chunk>): seq<Message>
    decreases |cs|
  {
    if cs == [] then []
    else Emitted(cs[..|cs| - 1]) + (if |cs[|cs| - 1].choices| > 0 then [Partial(AbsorbAll(Init, cs))] else [])
  }

  // ---------------------------------------------------------------------
  // Where the stream halts

  /** Chunk `k` ends the loop: it has a choice, and either the callback
      rejects the partial built from chunks 0 to k, or the choice has a
      finish reason. */
  predicate HaltsAt(cs: seq<Chunk>, k: nat, callback: (nat, Message) -> Option<string>)
    requires k < |cs|
  {
    && |cs[k].choices| > 0
    && (|| callback(Counted(cs[..k]), Partial(AbsorbAll(Init, cs[..k + 1]))).Some?
        || cs[k].choices[0].finishReason != "")
  }

  /** The flags `p(k)`, ..., `p(n - 1)`. */
  function Flags(p: nat -> bool, k: nat, n: nat): (f: seq<bool>)
    requires k <= n
    ensures |f| == n - k
    decreases n - k
  {
    if k == n then [] else [p(k)] + Flags(p, k + 1, n)
  }

  lemma {:induction false} FlagsAt(p: nat -> bool, k: nat, n: nat, j: nat)
    requires k <= j < n
    ensures Flags(p, k, n)[j - k] == p(j)
    decreases j - k
  {
    if k < j {
      FlagsAt(p, k + 1, n, j);
    }
  }

  /** Which chunks end the loop, one flag per chunk. */
  function Halts(cs: seq<Chunk>, callback: (nat, Message) -> Option<string>): (f: seq<bool>)
    ensures |f| == |cs|
  {
    Flags((j: nat) => j < |cs| && HaltsAt(cs, j, callback), 0, |cs|)
  }

  /** Flag `j` says whether chunk `j` ends the loop. */
  lemma FlagAt(cs: seq<Chunk>, j: nat, callback: (nat, Message) -> Option<string>)
    requires j < |cs|
    ensures Halts(cs, callback)[j] == HaltsAt(cs, j, callback)
  {
    FlagsAt((j: nat) => j < |cs| && HaltsAt(cs, j, callback), 0, |cs|, j);
  }

  /** The search for the first raised flag from `k` on: the number of flags
      up to and including it, all of them if none is raised. */
  function Scan(f: seq<bool>, k: nat): (n: nat)
    requires k <= |f|
    ensures k <= n <= |f|
    decreases |f| - k
  {
    if k == |f| then |f| else if f[k] then k + 1 else Scan(f, k + 1)
  }

  /** No flag before the end of the search is raised, and a search that
      stops short of the end stops just after a raised flag. */
  lemma {:induction false} ScanStops(f: seq<bool>, k: nat)
    requires k <= |f|
    ensures forall j :: k <= j < Scan(f, k) - 1 ==> !f[j]
    ensures Scan(f, k) < |f| ==> 0 < Scan(f, k) && f[Scan(f, k) - 1]
    decreases |f| - k
  {
    if k < |f| && !f[k] {
      ScanStops(f, k + 1);
    }
  }

  /** With no flag from `j` to `k` raised, the search gives the same result
      from either start. */
  lemma {:induction false} ScanSkips(f: seq<bool>, j: nat, k: nat)
    requires j <= k <= |f|
    requires forall i :: j <= i < k ==> !f[i]
    ensures Scan(f, j) == Scan(f, k)
    decreases k - j
  {
    if j < k {
      ScanSkips(f, j + 1, k);
    }
  }

  /** No flag before `k + 1` is raised when none before `k` is and flag
      `k` is not. */
  lemma NoneRaisedExtends(f: seq<bool>, k: nat)
    requires k < |f| && !f[k]
    requires forall j :: 0 <= j < k ==> !f[j]
    ensures forall j :: 0 <= j < k + 1 ==> !f[j]
  {
  }

  /** The number of chunks taken in when the search for a halting chunk
      starts at `k`: up to and including the first that halts, all if none
      does. */
  function Cut(cs: seq<Chunk>, k: nat, callback: (nat, Message) -> Option<string>): (n: nat)
    requires k <= |cs|
    ensures k <= n <= |cs|
  {
    Scan(Halts(cs, callback), k)
  }

  /** No chunk before the cut halts, and a cut short of the end follows the
      chunk that halts. */
  lemma CutHalts(cs: seq<Chunk>, k: nat, callback: (nat, Message) -> Option<string>)
    requires k <= |cs|
    ensures forall j :: k <= j < Cut(cs, k, callback) - 1 ==> !HaltsAt(cs, j, callback)
    ensures Cut(cs, k, callback) < |cs| ==> 0 < Cut(cs, k, callback) && HaltsAt(cs, Cut(cs, k, callback) - 1, callback)
  {
    CutPasses(cs, k, callback);
    var f := Halts(cs, callback);
    ScanStops(f, k);
    var n := Scan(f, k);
    if n < |cs| {
      FlagAt(cs, n - 1, callback);
    }
  }

  lemma CutPasses(cs: seq<Chunk>, k: nat, callback: (nat, Message) -> Option<string>)
    requires k <= |cs|
    ensures forall j :: k <= j < Cut(cs, k, callback) - 1 ==> !HaltsAt(cs, j, callback)
  {
    var f := Halts(cs, callback);
    ScanStops(f, k);
    forall j | k <= j < Scan(f, k) - 1
      ensures !HaltsAt(cs, j, callback)
    {
      FlagAt(cs, j, callback);
    }
  }

  /** The chunks the decoder takes in. */
  function Processed(lines: seq<string>, parse: string -> Option<Chunk>,
                     callback: (nat, Message) -> Option<string>): seq<Chunk>
  {
    var cs := Fed(lines, parse);
    cs[..Cut(cs, 0, callback)]
  }

  /** Why chunk `k` of `cs` ends the loop, when it does. */
  function HaltReason(cs: seq<Chunk>, k: nat, callback: (nat, Message) -> Option<string>): Ending
    requires k < |cs|
  {
    match callback(Counted(cs[..k]), Partial(AbsorbAll(Init, cs[..k + 1])))
    case Some(e) => Rejected(e)
    case None => Finished
  }

  /** Why the loop ends, given the chunks: the halting chunk's reason, else
      the sentinel if there is one, else the end of the lines. */
  function EndOf(cs: seq<Chunk>, stopped: bool, callback: (nat, Message) -> Option<string>): Ending {
    var n := Cut(cs, 0, callback);
    if 0 < n && Halts(cs, callback)[n - 1] then HaltReason(cs, n - 1, callback)
    else if stopped then Sentinel
    else Exhausted
  }

  /** The declarative account of the loop. */
  function SpecHalt(lines: seq<string>, parse: string -> Option<Chunk>,
                    callback: (nat, Message) -> Option<string>): Halt
  {
    var p := Processed(lines, parse, callback);
    Halt(AbsorbAll(Init, p), Emitted(p), EndOf(Fed(lines, parse), Stopped(lines, parse), callback))
  }

  // ---------------------------------------------------------------------
  // The loop agrees with the declarative account

  /** The loop on chunks alone, without lines. */
  function Steps(a: Acc, sent: seq<Message>, cs: seq<Chunk>, callback: (nat, Message) -> Option<string>): Halt
    decreases |cs|
  {
    if cs == [] then Halt(a, sent, Exhausted)
    else
      var b := Absorb(a, cs[0]);
      if |cs[0].choices| == 0 then Steps(b, sent, cs[1..], callback)
      else
        var p := Partial(b);
        match callback(|sent|, p)
        case Some(e) => Halt(b, sent + [p], Rejected(e))
        case None =>
          if cs[0].choices[0].finishReason != "" then Halt(b, sent + [p], Finished)
          else Steps(b, sent + [p], cs[1..], callback)
  }

  function Seal(h: Halt, stopped: bool): Halt {
    if h.ending == Exhausted && stopped then h.(ending := Sentinel) else h
  }

  /** Over lines, the loop is the loop over the chunks they carry, ending
      at the sentinel when it runs out of chunks. */
  lemma {:induction false} DriveSteps(a: Acc, sent: seq<Message>, lines: seq<string>,
                                      parse: string -> Option<Chunk>, callback: (nat, Message) -> Option<string>)
    ensures Drive(a, sent, lines, parse, callback)
         == Seal(Steps(a, sent, Fed(lines, parse), callback), Stopped(lines, parse))
    decreases |lines|
  {
    if lines != [] {
      match Classify(lines[0], parse)
      case Skip =>
        DriveSteps(a, sent, lines[1..], parse, callback);
      case Stop =>
      case Feed(c) =>
        var b := Absorb(a, c);
        DriveSteps(b, sent, lines[1..], parse, callback);
        if |c.choices| > 0 {
          DriveSteps(b, sent + [Partial(b)], lines[1..], parse, callback);
        }
        DriveFeed(a, sent, lines, c, parse, callback);
    }
  }

  /** The step of `DriveSteps` over a line that carries chunk `c`, given
      the account for the lines after it. */
  lemma DriveFeed(a: Acc, sent: seq<Message>, lines: seq<string>, c: Chunk,
                  parse: string -> Option<Chunk>, callback: (nat, Message) -> Option<string>)
    requires lines != [] && Classify(lines[0], parse) == Feed(c)
    requires var b := Absorb(a, c);
      Drive(b, sent, lines[1..], parse, callback)
      == Seal(Steps(b, sent, Fed(lines[1..], parse), callback), Stopped(lines[1..], parse))
    requires var b := Absorb(a, c);
      |c.choices| > 0 ==>
      Drive(b, sent + [Partial(b)], lines[1..], parse, callback)
      == Seal(Steps(b, sent + [Partial(b)], Fed(lines[1..], parse), callback), Stopped(lines[1..], parse))
    ensures Drive(a, sent, lines, parse, callback)
         == Seal(Steps(a, sent, Fed(lines, parse), callback), Stopped(lines, parse))
  {
    var rest := Fed(lines[1..], parse);
    assert Fed(lines, parse) == [c] + rest;
    assert Stopped(lines, parse) == Stopped(lines[1..], parse);
    StepsCons(a, sent, c, rest, callback);
  }

  /** One step of the loop on chunks. */
  lemma StepsCons(a: Acc, sent: seq<Message>, c: Chunk, rest: seq<Chunk>,
                  callback: (nat, Message) -> Option<string>)
    ensures var b := Absorb(a, c);
      Steps(a, sent, [c] + rest, callback)
      == if |c.choices| == 0 then Steps(b, sent, rest, callback)
         else match callback(|sent|, Partial(b))
           case Some(e) => Halt(b, sent + [Partial(b)], Rejected(e))
           case None =>
             if c.choices[0].finishReason != "" then Halt(b, sent + [Partial(b)], Finished)
             else Steps(b, sent + [Partial(b)], rest, callback)
  {
    assert ([c] + rest)[0] == c && ([c] + rest)[1..] == rest;
  }

  lemma PrefixStep(cs: seq<Chunk>, k: nat)
    requires k < |cs|
    ensures cs[..k + 1][..k] == cs[..k]
    ensures cs[..k + 1][k] == cs[k]
    ensures cs[k..][0] == cs[k] && cs[k..][1..] == cs[k + 1..]
  {
  }

  /** The number of partials due equals the number of chunks with a choice. */
  lemma {:induction false} EmittedCount(cs: seq<Chunk>)
    ensures |Emitted(cs)| == Counted(cs)
    decreases |cs|
  {
    if cs != [] {
      EmittedCount(cs[..|cs| - 1]);
    }
  }

  /** One step of the loop on chunks, from the state due for chunks 0 to
      k - 1. */
  lemma StepOnce(cs: seq<Chunk>, k: nat, callback: (nat, Message) -> Option<string>)
    requires k < |cs|
    ensures Steps(AbsorbAll(Init, cs[..k]), Emitted(cs[..k]), cs[k..], callback)
      == if Halts(cs, callback)[k]
         then Halt(AbsorbAll(Init, cs[..k + 1]), Emitted(cs[..k + 1]), HaltReason(cs, k, callback))
         else Steps(AbsorbAll(Init, cs[..k + 1]), Emitted(cs[..k + 1]), cs[k + 1..], callback)
  {
    PrefixStep(cs, k);
    FlagAt(cs, k, callback);
    var a := AbsorbAll(Init, cs[..k]);
    var b := Absorb(a, cs[k]);
    assert b == AbsorbAll(Init, cs[..k + 1]);
    EmittedCount(cs[..k]);
    if |cs[k].choices| > 0 {
      assert Emitted(cs[..k + 1]) == Emitted(cs[..k]) + [Partial(b)];
    } else {
      assert Emitted(cs[..k + 1]) == Emitted(cs[..k]);
    }
  }

  /** From chunk `k` on, with no chunk before `k` halting, the loop on
      chunks follows the declarative account. */
  lemma {:induction false} StepsFrom(cs: seq<Chunk>, k: nat, callback: (nat, Message) -> Option<string>)
    requires k <= |cs|
    requires forall j :: 0 <= j < k ==> !Halts(cs, callback)[j]
    ensures Cut(cs, 0, callback) == Cut(cs, k, callback)
    ensures var n := Cut(cs, 0, callback);
      Steps(AbsorbAll(Init, cs[..k]), Emitted(cs[..k]), cs[k..], callback)
      == Halt(AbsorbAll(Init, cs[..n]), Emitted(cs[..n]), EndOf(cs, false, callback))
    decreases |cs| - k
  {
    var f := Halts(cs, callback);
    if k == |cs| {
      StepsAtEnd(cs, callback);
    } else if f[k] {
      StepsHere(cs, k, callback);
    } else {
      NoneRaisedExtends(f, k);
      StepsFrom(cs, k + 1, callback);
      StepsPast(cs, k, callback);
    }
  }

  /** Chunk `k` halts and none before it does: the loop ends there. */
  lemma StepsHere(cs: seq<Chunk>, k: nat, callback: (nat, Message) -> Option<string>)
    requires k < |cs| && Halts(cs, callback)[k]
    requires forall j :: 0 <= j < k ==> !Halts(cs, callback)[j]
    ensures Cut(cs, 0, callback) == Cut(cs, k, callback)
    ensures var n := Cut(cs, 0, callback);
      Steps(AbsorbAll(Init, cs[..k]), Emitted(cs[..k]), cs[k..], callback)
      == Halt(AbsorbAll(Init, cs[..n]), Emitted(cs[..n]), EndOf(cs, false, callback))
  {
    var f := Halts(cs, callback);
    ScanSkips(f, 0, k);
    StepOnce(cs, k, callback);
    assert Scan(f, k) == k + 1;
  }

  /** Chunk `k` does not halt: what holds from chunk `k + 1` on holds from
      chunk `k` on. */
  lemma StepsPast(cs: seq<Chunk>, k: nat, callback: (nat, Message) -> Option<string>)
    requires k < |cs| && !Halts(cs, callback)[k]
    requires forall j :: 0 <= j < k ==> !Halts(cs, callback)[j]
    requires Cut(cs, 0, callback) == Cut(cs, k + 1, callback)
    requires var n := Cut(cs, 0, callback);
      Steps(AbsorbAll(Init, cs[..k + 1]), Emitted(cs[..k + 1]), cs[k + 1..], callback)
      == Halt(AbsorbAll(Init, cs[..n]), Emitted(cs[..n]), EndOf(cs, false, callback))
    ensures Cut(cs, 0, callback) == Cut(cs, k, callback)
    ensures var n := Cut(cs, 0, callback);
      Steps(AbsorbAll(Init, cs[..k]), Emitted(cs[..k]), cs[k..], callback)
      == Halt(AbsorbAll(Init, cs[..n]), Emitted(cs[..n]), EndOf(cs, false, callback))
  {
    ScanSkips(Halts(cs, callback), 0, k);
    StepOnce(cs, k, callback);
  }

  /** With no chunk halting, the loop takes in all of them and ends for
      want of chunks. */
  lemma StepsAtEnd(cs: seq<Chunk>, callback: (nat, Message) -> Option<string>)
    requires forall j :: 0 <= j < |cs| ==> !Halts(cs, callback)[j]
    ensures Cut(cs, 0, callback) == |cs|
    ensures Steps(AbsorbAll(Init, cs), Emitted(cs), [], callback)
         == Halt(AbsorbAll(Init, cs[..|cs|]), Emitted(cs[..|cs|]), EndOf(cs, false, callback))
  {
    var f := Halts(cs, callback);
    ScanSkips(f, 0, |cs|);
    assert cs[..|cs|] == cs;
    if 0 < |cs| {
      assert !f[|cs| - 1];
    }
  }

  /** The loop of the decoder is the declarative account. */
  lemma DriveMatchesSpec(lines: seq<string>, parse: string -> Option<Chunk>,
                         callback: (nat, Message) -> Option<string>)
    ensures Drive(Init, [], lines, parse, callback) == SpecHalt(lines, parse, callback)
  {
    var cs := Fed(lines, parse);
    DriveSteps(Init, [], lines, parse, callback);
    StepsFrom(cs, 0, callback);
    assert cs[..0] == [] && cs[0..] == cs;
    var n := Cut(cs, 0, callback);
    if 0 < n && Halts(cs, callback)[n - 1] {
      assert EndOf(cs, false, callback) == EndOf(cs, Stopped(lines, parse), callback);
    }
  }
}
