/** Properties of the stream decoder: what the final and the partial
    messages hold, stated over the chunks the decoder takes in. */
module StreamFacts {
  import opened Wrappers
  import opened GoText
  import opened Ai
  import opened StreamDecoder
  import opened StreamSpec

  // ---------------------------------------------------------------------
  // The decoder's result

  /** What `parseSSEResponse` returns: the partials due for the chunks
      taken in; the callback's error unchanged, else the scanner's error
      annotated, else the final message built from those chunks. */
  lemma DecodeResult(lines: seq<string>, parse: string -> Option<Chunk>,
                     callback: (nat, Message) -> Option<string>, scanErr: Option<string>)
    ensures var r := Decode(lines, parse, callback, scanErr);
      var p := Processed(lines, parse, callback);
      var e := EndOf(Fed(lines, parse), Stopped(lines, parse), callback);
      && r.sent == Emitted(p)
      && (e.Rejected? ==> r.result == Err(e.error))
      && (!e.Rejected? && scanErr.Some? ==> r.result == Err(ReadErrorPrefix + scanErr.value))
      && (!e.Rejected? && scanErr.None? ==> r.result == Ok(Final(AbsorbAll(Init, p))))
  {
    DriveMatchesSpec(lines, parse, callback);
  }

  /** The final message: the content is the in-order concatenation of the
      content fragments of the chunks taken in, the tool calls come from
      their fragments merged into an empty map, no think part is split off,
      and the metadata is marked `chat.completion`. */
  lemma FinalMessage(lines: seq<string>, parse: string -> Option<Chunk>,
                     callback: (nat, Message) -> Option<string>, scanErr: Option<string>)
    requires Decode(lines, parse, callback, scanErr).result.Ok?
    ensures var m := Decode(lines, parse, callback, scanErr).result.value;
      var p := Processed(lines, parse, callback);
      && m.AIMessage?
      && m.content == Contents(p)
      && m.toolCalls == SlotList(MergeAll(map[], Deltas(p)))
      && m.think == ""
      && m.response.objectKind == CompletionObject
  {
    DecodeResult(lines, parse, callback, scanErr);
    var p := Processed(lines, parse, callback);
    AbsorbAllContent(Init, p);
    AbsorbAllSlots(Init, p);
  }

  /** Chunk `j` has a choice and that choice carries a finish reason. */
  predicate FinishesAt(cs: seq<Chunk>, j: nat)
    requires j < |cs|
  {
    |cs[j].choices| > 0 && cs[j].choices[0].finishReason != ""
  }

  /** How many chunks there are up to and including the first that
      finishes, all of them if none does. */
  function FirstFinish(cs: seq<Chunk>): (n: nat)
    ensures n <= |cs|
  {
    Scan(Flags((j: nat) => j < |cs| && FinishesAt(cs, j), 0, |cs|), 0)
  }

  lemma FinishFlag(cs: seq<Chunk>, j: nat)
    requires j < |cs|
    ensures Flags((j: nat) => j < |cs| && FinishesAt(cs, j), 0, |cs|)[j] == FinishesAt(cs, j)
  {
    FlagsAt((j: nat) => j < |cs| && FinishesAt(cs, j), 0, |cs|, j);
  }

  /** The search ends at `n` when no flag before `n - 1` is raised and
      either flag `n - 1` is or `n` is the end. */
  lemma ScanEndsAt(f: seq<bool>, n: nat)
    requires n <= |f|
    requires forall j :: 0 <= j < n - 1 ==> !f[j]
    requires n == |f| || (0 < n && f[n - 1])
    ensures Scan(f, 0) == n
  {
    if 0 < n {
      ScanSkips(f, 0, n - 1);
    }
  }

  /** When the decoder succeeds, the chunks it takes in are exactly those
      up to and including the first whose choice has a finish reason, all
      of them if none has. */
  lemma OkStopsAtFinish(lines: seq<string>, parse: string -> Option<Chunk>,
                        callback: (nat, Message) -> Option<string>, scanErr: Option<string>)
    requires Decode(lines, parse, callback, scanErr).result.Ok?
    ensures var cs := Fed(lines, parse);
      Processed(lines, parse, callback) == cs[..FirstFinish(cs)]
  {
    DecodeResult(lines, parse, callback, scanErr);
    CutIsFirstFinish(Fed(lines, parse), Stopped(lines, parse), callback);
  }

  /** Without a rejection, the cut is right after the first chunk that
      finishes. */
  lemma CutIsFirstFinish(cs: seq<Chunk>, stopped: bool, callback: (nat, Message) -> Option<string>)
    requires !EndOf(cs, stopped, callback).Rejected?
    ensures Cut(cs, 0, callback) == FirstFinish(cs)
  {
    var n := Cut(cs, 0, callback);
    var g := Flags((j: nat) => j < |cs| && FinishesAt(cs, j), 0, |cs|);
    CutPasses(cs, 0, callback);
    forall j | 0 <= j < n - 1
      ensures !g[j]
    {
      assert !HaltsAt(cs, j, callback);
      FinishFlag(cs, j);
    }
    if n < |cs| {
      CutFinishes(cs, stopped, callback);
      FinishFlag(cs, n - 1);
    }
    ScanEndsAt(g, n);
  }

  /** Without a rejection, a cut short of the end follows a chunk that
      finishes. */
  lemma CutFinishes(cs: seq<Chunk>, stopped: bool, callback: (nat, Message) -> Option<string>)
    requires !EndOf(cs, stopped, callback).Rejected?
    requires Cut(cs, 0, callback) < |cs|
    ensures 0 < Cut(cs, 0, callback) && FinishesAt(cs, Cut(cs, 0, callback) - 1)
  {
    CutHalts(cs, 0, callback);
    FlagAt(cs, Cut(cs, 0, callback) - 1, callback);
  }

  // ---------------------------------------------------------------------
  // Content

  /** Content fragments are appended in arrival order. */
  lemma {:induction false} AbsorbAllContent(a: Acc, cs: seq<Chunk>)
    ensures AbsorbAll(a, cs).content == a.content + Contents(cs)
    decreases |cs|
  {
    if cs != [] {
      AbsorbAllContent(a, cs[..|cs| - 1]);
    }
  }

  // ---------------------------------------------------------------------
  // Tool calls

  lemma {:induction false} MergeAllAppend(m: map<int, ToolCall>, xs: seq<ToolCallDelta>, ys: seq<ToolCallDelta>)
    ensures MergeAll(m, xs + ys) == MergeAll(MergeAll(m, xs), ys)
    decreases |xs|
  {
    if xs == [] {
      assert xs + ys == ys;
    } else {
      assert (xs + ys)[0] == xs[0] && (xs + ys)[1..] == xs[1..] + ys;
      MergeAllAppend(MergeDelta(m, xs[0]), xs[1..], ys);
    }
  }

  /** The slot map is the tool-call fragments of all chunks taken in,
      merged in order; metadata and content play no part. */
  lemma {:induction false} AbsorbAllSlots(a: Acc, cs: seq<Chunk>)
    ensures AbsorbAll(a, cs).slots == MergeAll(a.slots, Deltas(cs))
    decreases |cs|
  {
    if cs != [] {
      var init := cs[..|cs| - 1];
      var c := cs[|cs| - 1];
      AbsorbAllSlots(a, init);
      if |c.choices| > 0 {
        MergeAllAppend(a.slots, Deltas(init), c.choices[0].delta.toolCalls);
      } else {
        assert Deltas(cs) == Deltas(init) + [];
        assert Deltas(init) + [] == Deltas(init);
      }
    }
  }

  /** The fragments addressed to slot `j`, in order. */
  function Filter(ds: seq<ToolCallDelta>, j: int): (fs: seq<ToolCallDelta>)
    ensures forall f :: f in fs ==> f in ds && f.index == j
    ensures forall d :: d in ds && d.index == j ==> d in fs
    decreases |ds|
  {
    if ds == [] then []
    else (if ds[0].index == j then [ds[0]] else []) + Filter(ds[1..], j)
  }

  /** The arguments fragments, concatenated. */
  function Args(fs: seq<ToolCallDelta>): string
    decreases |fs|
  {
    if fs == [] then "" else fs[0].arguments + Args(fs[1..])
  }

  /** Slot `j` is present after merging iff it was before or some fragment
      addresses it. */
  lemma {:induction false} SlotPresent(m: map<int, ToolCall>, ds: seq<ToolCallDelta>, j: int)
    ensures j in MergeAll(m, ds) <==> j in m || Filter(ds, j) != []
    decreases |ds|
  {
    if ds != [] {
      SlotPresent(MergeDelta(m, ds[0]), ds[1..], j);
    }
  }

  /** A slot already present keeps its id, type and name, and gains the
      argument fragments addressed to it, in order; fragments for other
      slots do not matter. */
  lemma {:induction false} SlotExtended(m: map<int, ToolCall>, ds: seq<ToolCallDelta>, j: int)
    requires j in m
    ensures j in MergeAll(m, ds)
    ensures MergeAll(m, ds)[j] == m[j].(args := m[j].args + Args(Filter(ds, j)))
    decreases |ds|
  {
    if ds == [] {
      assert m[j].args + "" == m[j].args;
    } else {
      var m' := MergeDelta(m, ds[0]);
      SlotExtended(m', ds[1..], j);
      var own := if ds[0].index == j then ds[0].arguments else "";
      ArgsCons(ds, j);
      assert m'[j] == m[j].(args := m[j].args + own);
      Assoc(m[j].args, own, Args(Filter(ds[1..], j)));
    }
  }

  lemma Assoc(a: string, b: string, c: string)
    ensures (a + b) + c == a + (b + c)
  {
  }

  /** The argument fragments for slot `j`, split after the first fragment
      of `ds`. */
  lemma ArgsCons(ds: seq<ToolCallDelta>, j: int)
    requires ds != []
    ensures Args(Filter(ds, j)) == (if ds[0].index == j then ds[0].arguments else "") + Args(Filter(ds[1..], j))
  {
    if ds[0].index == j {
      assert Filter(ds, j) == [ds[0]] + Filter(ds[1..], j);
    } else {
      assert Filter(ds, j) == Filter(ds[1..], j);
    }
  }

  /** A new slot takes id, type and name from the first fragment addressed
      to it, and its arguments are the fragments addressed to it,
      concatenated in order. */
  lemma {:induction false} SlotCreated(m: map<int, ToolCall>, ds: seq<ToolCallDelta>, j: int)
    requires j !in m && Filter(ds, j) != []
    ensures j in MergeAll(m, ds)
    ensures var f := Filter(ds, j)[0];
      MergeAll(m, ds)[j] == ToolCall(f.id, f.kind, f.name, Args(Filter(ds, j)))
    decreases |ds|
  {
    var d := ds[0];
    var m' := MergeDelta(m, d);
    if d.index == j {
      assert Filter(ds, j) == [d] + Filter(ds[1..], j);
      SlotExtended(m', ds[1..], j);
    } else {
      assert Filter(ds, j) == Filter(ds[1..], j);
      SlotCreated(m', ds[1..], j);
    }
  }

  /** What the caller finally holds for slot `j` of a stream: the tool call
      of the slot's first fragment, with all its argument fragments, in
      order. */
  lemma FinalSlot(cs: seq<Chunk>, j: int)
    ensures var slots := AbsorbAll(Init, cs).slots;
      var fs := Filter(Deltas(cs), j);
      && (j in slots <==> fs != [])
      && (fs != [] ==> slots[j] == ToolCall(fs[0].id, fs[0].kind, fs[0].name, Args(fs)))
  {
    AbsorbAllSlots(Init, cs);
    SlotPresent(map[], Deltas(cs), j);
    if Filter(Deltas(cs), j) != [] {
      SlotCreated(map[], Deltas(cs), j);
    }
  }

  // ---------------------------------------------------------------------
  // The map-to-list conversion

  /** The indices `Walk` visits that hold a tool call, in order. */
  function Kept(slots: map<int, ToolCall>, n: nat): seq<int> {
    if n == 0 then [] else Kept(slots, n - 1) + (if n - 1 in slots then [n - 1] else [])
  }

  /** `Walk` lists the slots at the kept indices, which are slots below
      `n`. */
  lemma {:induction false} WalkKept(slots: map<int, ToolCall>, n: nat)
    ensures |Walk(slots, n)| == |Kept(slots, n)|
    ensures forall k :: 0 <= k < |Kept(slots, n)| ==>
      0 <= Kept(slots, n)[k] < n && Kept(slots, n)[k] in slots && Walk(slots, n)[k] == slots[Kept(slots, n)[k]]
  {
    if n > 0 {
      WalkKept(slots, n - 1);
    }
  }

  /** The kept indices ascend strictly and include every slot below `n`. */
  lemma {:induction false} KeptOrder(slots: map<int, ToolCall>, n: nat)
    ensures forall k :: 0 <= k < |Kept(slots, n)| ==> 0 <= Kept(slots, n)[k] < n
    ensures forall k, l :: 0 <= k < l < |Kept(slots, n)| ==> Kept(slots, n)[k] < Kept(slots, n)[l]
    ensures forall i :: 0 <= i < n && i in slots ==> i in Kept(slots, n)
  {
    if n > 0 {
      KeptOrder(slots, n - 1);
    }
  }

  /** As many indices are kept as there are slots below `n`. */
  lemma {:induction false} KeptSize(slots: map<int, ToolCall>, n: nat)
    ensures |Kept(slots, n)| == |set i | 0 <= i < n && i in slots|
  {
    if n > 0 {
      KeptSize(slots, n - 1);
      var below := set i | 0 <= i < n - 1 && i in slots;
      if n - 1 in slots {
        assert (set i | 0 <= i < n && i in slots) == below + {n - 1};
      } else {
        assert (set i | 0 <= i < n && i in slots) == below;
      }
    }
  }

  /** The list handed out holds the slots 0 to |slots| - 1 in ascending
      order, so it is never longer than the map; it is exactly as long when
      the slot indices are dense from 0, and shorter when any slot lies
      outside 0 to |slots| - 1, which is then dropped. */
  lemma SlotListShape(slots: map<int, ToolCall>)
    ensures |SlotList(slots)| <= |slots|
    ensures (forall i :: i in slots ==> 0 <= i < |slots|) ==> |SlotList(slots)| == |slots|
    ensures (exists i :: i in slots && !(0 <= i < |slots|)) ==> |SlotList(slots)| < |slots|
    ensures forall k :: 0 <= k < |SlotList(slots)| ==>
      && k < |Kept(slots, |slots|)| && 0 <= Kept(slots, |slots|)[k] < |slots|
      && Kept(slots, |slots|)[k] in slots && SlotList(slots)[k] == slots[Kept(slots, |slots|)[k]]
    ensures forall k, l :: 0 <= k < l < |Kept(slots, |slots|)| ==> Kept(slots, |slots|)[k] < Kept(slots, |slots|)[l]
    ensures forall i :: 0 <= i < |slots| && i in slots ==> i in Kept(slots, |slots|)
  {
    var n := |slots|;
    WalkKept(slots, n);
    KeptOrder(slots, n);
    KeptSize(slots, n);
    var kept := set i | 0 <= i < n && i in slots;
    assert kept <= slots.Keys;
    assert |slots.Keys| == n;
    SubsetSize(kept, slots.Keys);
    if forall i :: i in slots ==> 0 <= i < n {
      assert kept == slots.Keys;
    }
    if exists i :: i in slots && !(0 <= i < n) {
      var i :| i in slots && !(0 <= i < n);
      SubsetSize(kept, slots.Keys - {i});
    }
  }

  lemma SubsetSize(a: set<int>, b: set<int>)
    requires a <= b
    ensures |a| <= |b|
  {
    assert b == a + (b - a);
  }

  // ---------------------------------------------------------------------
  // Metadata and role

  /** Once the captured id is non-empty, the metadata never changes. */
  lemma {:induction false} MetadataFrozen(a: Acc, cs: seq<Chunk>)
    requires a.id != ""
    ensures var r := AbsorbAll(a, cs); r.id == a.id && r.created == a.created && r.model == a.model
    decreases |cs|
  {
    if cs != [] {
      MetadataFrozen(a, cs[..|cs| - 1]);
    }
  }

  /** While every chunk has an empty id, each one overwrites the metadata:
      the last chunk's created time and model remain. */
  lemma {:induction false} MetadataOverwritten(a: Acc, cs: seq<Chunk>)
    requires a.id == "" && cs != []
    requires forall k :: 0 <= k < |cs| ==> cs[k].id == ""
    ensures var r := AbsorbAll(a, cs);
      r.id == "" && r.created == cs[|cs| - 1].created && r.model == cs[|cs| - 1].model
    decreases |cs|
  {
    if |cs| > 1 {
      MetadataOverwritten(a, cs[..|cs| - 1]);
    }
  }

  /** The metadata is that of the first chunk with a non-empty id. */
  lemma {:induction false} MetadataCaptured(a: Acc, cs: seq<Chunk>, k: nat)
    requires a.id == "" && k < |cs| && cs[k].id != ""
    requires forall j :: 0 <= j < k ==> cs[j].id == ""
    ensures var r := AbsorbAll(a, cs); r.id == cs[k].id && r.created == cs[k].created && r.model == cs[k].model
    decreases |cs|
  {
    var init := cs[..|cs| - 1];
    if k == |cs| - 1 {
      if init != [] {
        MetadataOverwritten(a, init);
      }
    } else {
      MetadataCaptured(a, init, k);
      MetadataFrozen(AbsorbAll(a, init), [cs[|cs| - 1]]);
      assert [cs[|cs| - 1]][..0] == [];
    }
  }

  /** The chunk contributes a role: it has a choice whose role is set. */
  predicate Names(c: Chunk) {
    |c.choices| > 0 && c.choices[0].delta.role != ""
  }

  /** Once set, the role never changes. */
  lemma {:induction false} RoleFrozen(a: Acc, cs: seq<Chunk>)
    requires a.role != ""
    ensures AbsorbAll(a, cs).role == a.role
    decreases |cs|
  {
    if cs != [] {
      RoleFrozen(a, cs[..|cs| - 1]);
    }
  }

  /** Chunks that name no role leave it as it was. */
  lemma {:induction false} RoleUnset(a: Acc, cs: seq<Chunk>)
    requires forall k :: 0 <= k < |cs| ==> !Names(cs[k])
    ensures AbsorbAll(a, cs).role == a.role
    decreases |cs|
  {
    if cs != [] {
      RoleUnset(a, cs[..|cs| - 1]);
    }
  }

  /** The role is the first non-empty role of the stream. */
  lemma {:induction false} RoleFirst(a: Acc, cs: seq<Chunk>, k: nat)
    requires a.role == "" && k < |cs| && Names(cs[k])
    requires forall j :: 0 <= j < k ==> !Names(cs[j])
    ensures AbsorbAll(a, cs).role == cs[k].choices[0].delta.role
    decreases |cs|
  {
    var init := cs[..|cs| - 1];
    if k == |cs| - 1 {
      RoleUnset(a, init);
    } else {
      RoleFirst(a, init, k);
      RoleFrozen(AbsorbAll(a, init), [cs[|cs| - 1]]);
      assert [cs[|cs| - 1]][..0] == [];
    }
  }

  // ---------------------------------------------------------------------
  // The partial messages

  /** Every partial message's content is a prefix of the content built
      from all the chunks, and of every later partial's content. */
  lemma {:induction false} EmittedPrefixes(cs: seq<Chunk>)
    ensures forall i :: 0 <= i < |Emitted(cs)| ==>
      Emitted(cs)[i].AIMessage? && Emitted(cs)[i].content <= AbsorbAll(Init, cs).content
    ensures forall i, j :: 0 <= i < j < |Emitted(cs)| ==>
      Emitted(cs)[i].AIMessage? && Emitted(cs)[j].AIMessage? && Emitted(cs)[i].content <= Emitted(cs)[j].content
    decreases |cs|
  {
    if cs != [] {
      var init := cs[..|cs| - 1];
      EmittedPrefixes(init);
      AbsorbAllContent(AbsorbAll(Init, init), [cs[|cs| - 1]]);
      assert [cs[|cs| - 1]][..0] == [];
    }
  }

  /** The partials of a longer stream extend those of a shorter one. */
  lemma {:induction false} EmittedExtends(cs: seq<Chunk>, k: nat)
    requires k <= |cs|
    ensures Emitted(cs[..k]) <= Emitted(cs)
    decreases |cs| - k
  {
    if k < |cs| {
      EmittedExtends(cs, k + 1);
      assert cs[..k + 1][..k] == cs[..k];
    } else {
      assert cs[..k] == cs;
    }
  }

  /** The callback receives one partial per chunk taken in that has a
      choice, and each partial's content is a prefix of the final
      content. */
  lemma Callbacks(lines: seq<string>, parse: string -> Option<Chunk>,
                  callback: (nat, Message) -> Option<string>, scanErr: Option<string>)
    ensures var r := Decode(lines, parse, callback, scanErr);
      var p := Processed(lines, parse, callback);
      && |r.sent| == Counted(p)
      && (forall i :: 0 <= i < |r.sent| ==> r.sent[i].AIMessage?)
      && (forall i, j :: 0 <= i < j < |r.sent| ==> r.sent[i].content <= r.sent[j].content)
      && (r.result.Ok? ==> r.result.value.AIMessage?)
      && (r.result.Ok? ==> forall i :: 0 <= i < |r.sent| ==> r.sent[i].content <= r.result.value.content)
  {
    DecodeResult(lines, parse, callback, scanErr);
    var p := Processed(lines, parse, callback);
    EmittedCount(p);
    EmittedPrefixes(p);
  }

  // ---------------------------------------------------------------------
  // Lines that do not matter

  /** `Fed` on a line followed by others. */
  lemma FedCons(x: string, rest: seq<string>, parse: string -> Option<Chunk>)
    ensures Fed([x] + rest, parse) == match Classify(x, parse)
      case Skip => Fed(rest, parse)
      case Stop => []
      case Feed(c) => [c] + Fed(rest, parse)
  {
    assert ([x] + rest)[0] == x && ([x] + rest)[1..] == rest;
  }

  lemma ConsSplit(pre: seq<string>, l: string, post: seq<string>)
    requires pre != []
    ensures pre + [l] + post == [pre[0]] + (pre[1..] + [l] + post)
    ensures pre + post == [pre[0]] + (pre[1..] + post)
  {
    assert pre == [pre[0]] + pre[1..];
  }

  /** A skipped line contributes no chunk. */
  lemma {:induction false} SkippedLine(pre: seq<string>, l: string, post: seq<string>, parse: string -> Option<Chunk>)
    requires Classify(l, parse) == Skip
    ensures Fed(pre + [l] + post, parse) == Fed(pre + post, parse)
    decreases |pre|
  {
    if pre == [] {
      assert pre + [l] + post == [l] + post && pre + post == post;
      FedCons(l, post, parse);
    } else {
      SkippedLine(pre[1..], l, post, parse);
      ConsSplit(pre, l, post);
      FedCons(pre[0], pre[1..] + [l] + post, parse);
      FedCons(pre[0], pre[1..] + post, parse);
    }
  }

  /** Nothing after the `data: [DONE]` line is read. */
  lemma {:induction false} AfterSentinel(pre: seq<string>, l: string, post: seq<string>, parse: string -> Option<Chunk>)
    requires Classify(l, parse) == Stop
    ensures Fed(pre + [l] + post, parse) == Fed(pre, parse)
    decreases |pre|
  {
    if pre != [] {
      AfterSentinel(pre[1..], l, post, parse);
      assert (pre + [l] + post)[1..] == pre[1..] + [l] + post;
    }
  }

  /** Once the loop has ended, further lines change nothing: in particular
      after a rejection by the callback, no line is processed. */
  lemma {:induction false} HaltedIgnoresRest(a: Acc, sent: seq<Message>, lines: seq<string>, more: seq<string>,
                                             parse: string -> Option<Chunk>, callback: (nat, Message) -> Option<string>)
    requires Drive(a, sent, lines, parse, callback).ending != Exhausted
    ensures Drive(a, sent, lines + more, parse, callback) == Drive(a, sent, lines, parse, callback)
    decreases |lines|
  {
    assert lines != [];
    assert (lines + more)[0] == lines[0] && (lines + more)[1..] == lines[1..] + more;
    match Classify(lines[0], parse)
    case Skip =>
      HaltedIgnoresRest(a, sent, lines[1..], more, parse, callback);
    case Stop =>
    case Feed(c) =>
      var b := Absorb(a, c);
      if |c.choices| == 0 {
        HaltedIgnoresRest(b, sent, lines[1..], more, parse, callback);
      } else if callback(|sent|, Partial(b)).None? && c.choices[0].finishReason == "" {
        HaltedIgnoresRest(b, sent + [Partial(b)], lines[1..], more, parse, callback);
      }
  }

  /** A rejection by the callback ends the decoder with that error, whatever
      follows and whatever the scanner reports. */
  lemma Rejection(lines: seq<string>, more: seq<string>, parse: string -> Option<Chunk>,
                  callback: (nat, Message) -> Option<string>, scanErr: Option<string>)
    requires Drive(Init, [], lines, parse, callback).ending.Rejected?
    ensures Decode(lines + more, parse, callback, scanErr)
         == Run(Err(Drive(Init, [], lines, parse, callback).ending.error), Drive(Init, [], lines, parse, callback).sent)
  {
    HaltedIgnoresRest(Init, [], lines, more, parse, callback);
  }
}
