/**
 * Streaming chunks and their accumulation into a complete response (pkg/types/stream.go).
 *
 * The accumulator keeps, per choice index, a record of what the deltas have said so far,
 * and per tool-call index inside it a record of the tool call.  The records are values
 * held in maps that `Add` updates in place; `Step` is the specification of one `Add`.
 */
module Stream {
  import opened Wrappers
  import opened Common
  import opened Errors
  import opened Metadata
  import opened Messages
  import opened Chat

  // ----- chunks -----

  datatype FunctionCallDelta = FunctionCallDelta(name: string, arguments: string)

  /** A tool-call delta; `fn` is None for a nil Function. */
  datatype ToolCallDelta = ToolCallDelta(index: int, id: string, toolType: ToolType, fn: Option<FunctionCallDelta>)

  datatype MessageDelta = MessageDelta(
    role: Role,
    content: string,
    toolCalls: seq<ToolCallDelta>,
    functionCall: Option<FunctionCallDelta>)

  /** A choice of a chunk; `delta` is None for a nil Delta.  Log probabilities are not modelled. */
  datatype StreamChoice = StreamChoice(index: int, delta: Option<MessageDelta>, finishReason: FinishReason)

  datatype ChatStreamChunk = ChatStreamChunk(
    id: string,
    objectType: string,
    created: int,
    model: string,
    choices: seq<StreamChoice>,
    usage: Option<UsageCounts>,
    systemFingerprint: string)
  {
    /** GetFirstDelta: nil without choices, otherwise the first choice's (possibly nil) delta. */
    function GetFirstDelta(): (d: Option<MessageDelta>)
      ensures |choices| == 0 ==> d.None?
      ensures |choices| > 0 ==> d == choices[0].delta
    {
      if |choices| > 0 then choices[0].delta else None
    }

    /** GetFirstContent: the first delta's content, or "" when there is no first delta. */
    function GetFirstContent(): (s: string)
      ensures GetFirstDelta().None? ==> s == ""
      ensures GetFirstDelta().Some? ==> s == GetFirstDelta().value.content
    {
      var d := GetFirstDelta();
      if d.Some? then d.value.content else ""
    }
  }

  /** A StreamChunk interface value: the library's chat chunk, or another implementation. */
  datatype StreamChunk = Chat(chunk: ChatStreamChunk) | OtherChunk

  /** A finish reason that ends generation: neither "" (still streaming) nor "null". */
  predicate IsFinished(f: FinishReason) {
    f != "" && f != FinishReasonNull
  }

  /** IsComplete: a searching loop that stops at the first choice with a finish reason. */
  method IsComplete(c: ChatStreamChunk) returns (done: bool)
    ensures done <==> exists i :: 0 <= i < |c.choices| && IsFinished(c.choices[i].finishReason)
    ensures |c.choices| == 0 ==> !done
  {
    if |c.choices| == 0 {
      return false;
    }
    var i := 0;
    while i < |c.choices|
      invariant 0 <= i <= |c.choices|
      invariant forall k :: 0 <= k < i ==> !IsFinished(c.choices[k].finishReason)
    {
      if c.choices[i].finishReason != "" && c.choices[i].finishReason != FinishReasonNull {
        return true;
      }
      i := i + 1;
    }
    return false;
  }

  // ----- stream errors -----

  datatype StreamError = StreamError(message: string, errorType: ErrorType, code: string)
  {
    /** The part shared by both formats: "type: message". */
    function Headline(): string {
      ErrorTypeString(errorType) + ": " + message
    }

    /** StreamError.Error: "type: message", followed by " (code)" exactly when the code is non-empty. */
    function Error(): (s: string)
      ensures HasPrefix(s, Headline())
      ensures s == Headline() <==> code == ""
      ensures code != "" ==> s[|Headline()|..] == " (" + code + ")"
    {
      if code != "" then Headline() + " (" + code + ")" else Headline()
    }
  }

  // ----- accumulated records -----

  datatype AccumulatedToolCall = AccumulatedToolCall(
    index: int,
    id: string,
    toolType: ToolType,
    functionName: string,
    arguments: string)

  datatype AccumulatedChoice = AccumulatedChoice(
    index: int,
    role: Role,
    content: string,
    toolCalls: map<int, AccumulatedToolCall>,
    finishReason: FinishReason)

  /** Everything a StreamAccumulator holds, as a value; `usage` is None for a nil Usage. */
  datatype AccState = AccState(
    id: string,
    model: string,
    created: int,
    choices: map<int, AccumulatedChoice>,
    usage: Option<UsageCounts>,
    systemFingerprint: string)

  /** The state NewStreamAccumulator creates. */
  const EmptyAcc := AccState("", "", 0, map[], None, "")

  /** The record Add creates for a tool-call index it has not seen. */
  function NewToolCall(index: int): AccumulatedToolCall {
    AccumulatedToolCall(index, "", "", "", "")
  }

  /** The record Add creates for a choice index it has not seen. */
  function NewChoice(index: int): AccumulatedChoice {
    AccumulatedChoice(index, "", "", map[], "")
  }

  /** The tool-call record at `index`, or the fresh one Add would create there. */
  function FindToolCall(calls: map<int, AccumulatedToolCall>, index: int): AccumulatedToolCall {
    if index in calls then calls[index] else NewToolCall(index)
  }

  /** The choice record at `index`, or the fresh one Add would create there. */
  function FindChoice(choices: map<int, AccumulatedChoice>, index: int): AccumulatedChoice {
    if index in choices then choices[index] else NewChoice(index)
  }

  // ----- specification of Add -----

  /** One tool-call delta applied to a tool-call record. */
  function MergeToolDelta(t: AccumulatedToolCall, d: ToolCallDelta): AccumulatedToolCall {
    var t1 := t.(id := if d.id != "" then d.id else t.id,
                 toolType := if d.toolType != "" then d.toolType else t.toolType);
    match d.fn
    case None => t1
    case Some(f) =>
      t1.(functionName := if f.name != "" then f.name else t1.functionName,
          arguments := if f.arguments != "" then t1.arguments + f.arguments else t1.arguments)
  }

  /** Tool-call deltas applied in order to a choice's tool-call map. */
  function ApplyToolDeltas(calls: map<int, AccumulatedToolCall>, ds: seq<ToolCallDelta>): map<int, AccumulatedToolCall>
    decreases |ds|
  {
    if ds == [] then calls
    else
      var prev := ApplyToolDeltas(calls, ds[..|ds| - 1]);
      var d := ds[|ds| - 1];
      prev[d.index := MergeToolDelta(FindToolCall(prev, d.index), d)]
  }

  /** One stream choice applied to its choice record; a nil delta changes nothing. */
  function MergeChoiceDelta(c: AccumulatedChoice, sc: StreamChoice): AccumulatedChoice {
    match sc.delta
    case None => c
    case Some(d) =>
      c.(role := if d.role != "" then d.role else c.role,
         content := if d.content != "" then c.content + d.content else c.content,
         toolCalls := ApplyToolDeltas(c.toolCalls, d.toolCalls),
         finishReason := if IsFinished(sc.finishReason) then sc.finishReason else c.finishReason)
  }

  /** Stream choices applied in order to the choice map; a choice with a nil delta is skipped. */
  function ApplyChoices(choices: map<int, AccumulatedChoice>, scs: seq<StreamChoice>): map<int, AccumulatedChoice>
    decreases |scs|
  {
    if scs == [] then choices
    else
      var prev := ApplyChoices(choices, scs[..|scs| - 1]);
      var sc := scs[|scs| - 1];
      if sc.delta.None? then prev
      else prev[sc.index := MergeChoiceDelta(FindChoice(prev, sc.index), sc)]
  }

  /** The usage after a chunk: unchanged without chunk usage, else the sum, starting from zero. */
  function AddUsage(u: Option<UsageCounts>, chunkUsage: Option<UsageCounts>): Option<UsageCounts> {
    match chunkUsage
    case None => u
    case Some(cu) => Some(Plus(u.GetOr(ZeroUsage), cu))
  }

  /** The state after Add(chunk); chunks of other StreamChunk implementations are ignored. */
  function Step(s: AccState, chunk: StreamChunk): AccState {
    match chunk
    case OtherChunk => s
    case Chat(c) =>
      AccState(c.id, c.model, c.created, ApplyChoices(s.choices, c.choices),
               AddUsage(s.usage, c.usage), c.systemFingerprint)
  }

  /** The state after adding the chunks in order. */
  function Steps(s: AccState, chunks: seq<StreamChunk>): AccState
    decreases |chunks|
  {
    if chunks == [] then s else Step(Steps(s, chunks[..|chunks| - 1]), chunks[|chunks| - 1])
  }

  // ----- specification of ToChatResponse -----

  /** `keys` lists every element of `ks` exactly once, in some order. */
  ghost predicate Enumerates(keys: seq<int>, ks: set<int>) {
    (forall i, j :: 0 <= i < j < |keys| ==> keys[i] != keys[j]) &&
    (forall n :: 0 <= n < |keys| ==> keys[n] in ks) &&
    (forall k :: k in ks ==> k in keys)
  }


  /** The ToolCall built from an accumulated tool call. */
  function ToToolCall(t: AccumulatedToolCall): (tc: ToolCall)
    ensures tc.index == t.index && tc.id == t.id && tc.toolType == t.toolType
    ensures tc.call.name == t.functionName && tc.call.arguments == t.arguments
  {
    ToolCall(t.id, t.toolType, FunctionCall(t.functionName, t.arguments), t.index)
  }

  /** The tool calls built from `calls`, visiting the keys in the order `order` gives. */
  function ConvertedCalls(calls: map<int, AccumulatedToolCall>, order: seq<int>): (r: seq<ToolCall>)
    requires forall n :: 0 <= n < |order| ==> order[n] in calls
    ensures |r| == |order|
    decreases |order|
  {
    if order == [] then []
    else ConvertedCalls(calls, order[..|order| - 1]) + [ToToolCall(calls[order[|order| - 1]])]
  }

  /** The Choice built from an accumulated choice, visiting its tool calls in the order `order` gives. */
  function ToChoice(c: AccumulatedChoice, order: seq<int>): Choice
    requires forall n :: 0 <= n < |order| ==> order[n] in c.toolCalls
  {
    var calls := if |c.toolCalls| > 0 then ConvertedCalls(c.toolCalls, order) else [];
    Choice(c.index, Some(Message(c.role, Some(NewTextContent(c.content)), "", "", calls, None)),
           None, c.finishReason)
  }

  /** `ch` is the Choice built from `c` when its tool calls are visited in the order `order`. */
  ghost predicate BuiltFrom(ch: Choice, c: AccumulatedChoice, order: seq<int>) {
    Enumerates(order, c.toolCalls.Keys) && ch == ToChoice(c, order)
  }

  /** Every record is stored under its own index, at both levels. */
  ghost predicate WellKeyed(choices: map<int, AccumulatedChoice>) {
    forall i :: i in choices ==>
      choices[i].index == i &&
      forall j :: j in choices[i].toolCalls ==> choices[i].toolCalls[j].index == j
  }

  // ----- the accumulator -----

  class StreamAccumulator {
    var id: string
    var model: string
    var created: int
    var choices: map<int, AccumulatedChoice>
    var usage: Option<UsageCounts>
    var systemFingerprint: string

    /** The accumulator's fields as a value. */
    function State(): AccState
      reads this
    {
      AccState(id, model, created, choices, usage, systemFingerprint)
    }

    /** Every record is stored under its own index (what NewStreamAccumulator and Add maintain). */
    ghost predicate Valid()
      reads this
    {
      WellKeyed(choices)
    }

    /** NewStreamAccumulator: empty maps, zero header fields, nil usage. */
    constructor ()
      ensures State() == EmptyAcc
      ensures Valid()
    {
      id := "";
      model := "";
      created := 0;
      choices := map[];
      usage := None;
      systemFingerprint := "";
    }

    /** Add: folds one chunk into the accumulator, keeping every record under its own index. */
    method Add(chunk: StreamChunk)
      modifies this
      ensures State() == Step(old(State()), chunk)
      ensures old(Valid()) ==> Valid()
    {
      ghost var before := State();
      if Valid() {
        StepKeepsWellKeyed(before, chunk);
      }
      if chunk.Chat? {
        var c := chunk.chunk;
        id := c.id;
        model := c.model;
        created := c.created;
        systemFingerprint := c.systemFingerprint;

        if c.usage.Some? {
          if usage.None? {
            usage := Some(ZeroUsage);
          }
          usage := Some(Plus(usage.value, c.usage.value));
        }

        choices := AccumulateChoices(choices, c.choices);
      }
    }

    /** ToChatResponse: one Choice per accumulated index, in the (unspecified) order `keys`. */
    method ToChatResponse() returns (r: ChatResponse, ghost keys: seq<int>, ghost toolOrders: seq<seq<int>>)
      ensures r.id == id && r.objectType == "chat.completion" && r.created == created && r.model == model
      ensures r.usage == usage && r.systemFingerprint == systemFingerprint
      ensures Enumerates(keys, choices.Keys)
      ensures |r.choices| == |keys| == |toolOrders|
      ensures forall j :: 0 <= j < |keys| ==> BuiltFrom(r.choices[j], choices[keys[j]], toolOrders[j])
      ensures |r.choices| == |choices|
      ensures Valid() ==> forall j :: 0 <= j < |keys| ==> r.choices[j].index == keys[j]
    {
      var out;
      out, keys, toolOrders := ConvertChoices(choices);
      r := ChatResponse(id, "chat.completion", created, model, out, usage, systemFingerprint);
      EnumeratedSize(keys, choices.Keys);
    }
  }

  /** The loop of ToChatResponse: one Choice per key of `m`, visited in the order `keys`. */
  method ConvertChoices(m: map<int, AccumulatedChoice>)
    returns (out: seq<Choice>, ghost keys: seq<int>, ghost toolOrders: seq<seq<int>>)
    ensures Enumerates(keys, m.Keys)
    ensures |out| == |keys| == |toolOrders|
    ensures forall j :: 0 <= j < |keys| ==> BuiltFrom(out[j], m[keys[j]], toolOrders[j])
  {
    var order := MapOrder(m.Keys);
    out := [];
    toolOrders := [];
    for i := 0 to |order|
      invariant |out| == i == |toolOrders|
      invariant forall j :: 0 <= j < i ==> BuiltFrom(out[j], m[order[j]], toolOrders[j])
    {
      var choice;
      ghost var tools;
      choice, tools := ConvertChoice(m[order[i]]);
      out := out + [choice];
      toolOrders := toolOrders + [tools];
    }
    keys := order;
  }

  /** The choice-building step of ToChatResponse: the message, with its tool calls only when there are some. */
  method ConvertChoice(c: AccumulatedChoice) returns (ch: Choice, ghost order: seq<int>)
    ensures Enumerates(order, c.toolCalls.Keys)
    ensures ch == ToChoice(c, order)
  {
    var message := Message(c.role, Some(NewTextContent(c.content)), "", "", [], None);
    order := [];
    if |c.toolCalls| > 0 {
      var toolCalls;
      toolCalls, order := ConvertToolCalls(c.toolCalls);
      message := message.(toolCalls := toolCalls);
    } else {
      assert c.toolCalls.Keys == {};
    }
    ch := Choice(c.index, Some(message), None, c.finishReason);
  }

  /** The choice loop of Add: each choice with a delta merged into the record at its index, in order. */
  method AccumulateChoices(choices: map<int, AccumulatedChoice>, scs: seq<StreamChoice>)
    returns (acc: map<int, AccumulatedChoice>)
    ensures acc == ApplyChoices(choices, scs)
  {
    acc := choices;
    var i := 0;
    while i < |scs|
      invariant 0 <= i <= |scs|
      invariant acc == ApplyChoices(choices, scs[..i])
    {
      assert scs[..i + 1][..i] == scs[..i];
      var choice := scs[i];
      ghost var prev := acc;
      if choice.delta.Some? {
        var idx := choice.index;
        if idx !in acc {
          acc := acc[idx := NewChoice(idx)];
        }
        var accChoice := acc[idx];
        assert accChoice == FindChoice(prev, idx);
        accChoice := MergeChoice(accChoice, choice);
        acc := acc[idx := accChoice];
      }
      assert acc == ApplyChoices(choices, scs[..i + 1]);
      i := i + 1;
    }
    assert scs[..i] == scs;
  }

  /** Some element of a non-empty set (which one is unspecified, like Go's map iteration order). */
  method Pick(s: set<int>) returns (k: int)
    requires s != {}
    ensures k in s
  {
    HasElement(s);
    k :| k in s;
  }

  /** A non-empty set has an element. */
  lemma HasElement(s: set<int>)
    requires s != {}
    ensures exists k :: k in s
  {
    if forall k :: k !in s {
      NoElementMeansEmpty(s);
    }
  }

  /** A set without elements is the empty set. */
  lemma NoElementMeansEmpty(s: set<int>)
    requires forall k :: k !in s
    ensures s == {}
  {
    assert forall k :: k in s <==> k in {};
  }

  /** The body of Add's choice loop for one choice with a delta: role, content, tool calls, finish reason. */
  method MergeChoice(c: AccumulatedChoice, choice: StreamChoice) returns (r: AccumulatedChoice)
    requires choice.delta.Some?
    ensures r == MergeChoiceDelta(c, choice)
  {
    r := c;
    var delta := choice.delta.value;
    if delta.role != "" {
      r := r.(role := delta.role);
    }
    if delta.content != "" {
      r := r.(content := r.content + delta.content);
    }
    var calls := AccumulateToolCalls(r.toolCalls, delta.toolCalls);
    r := r.(toolCalls := calls);
    if choice.finishReason != "" && choice.finishReason != FinishReasonNull {
      r := r.(finishReason := choice.finishReason);
    }
  }

  /** The body of Add's tool-call loop for one delta: ID, type, name and argument fragment. */
  method MergeTool(t: AccumulatedToolCall, d: ToolCallDelta) returns (r: AccumulatedToolCall)
    ensures r == MergeToolDelta(t, d)
  {
    r := t;
    if d.id != "" {
      r := r.(id := d.id);
    }
    if d.toolType != "" {
      r := r.(toolType := d.toolType);
    }
    if d.fn.Some? {
      if d.fn.value.name != "" {
        r := r.(functionName := d.fn.value.name);
      }
      if d.fn.value.arguments != "" {
        r := r.(arguments := r.arguments + d.fn.value.arguments);
      }
    }
  }

  /** The tool-call loop of Add: each delta merged into the record at its index, in order. */
  method AccumulateToolCalls(calls: map<int, AccumulatedToolCall>, deltas: seq<ToolCallDelta>)
    returns (r: map<int, AccumulatedToolCall>)
    ensures r == ApplyToolDeltas(calls, deltas)
  {
    r := calls;
    var i := 0;
    while i < |deltas|
      invariant 0 <= i <= |deltas|
      invariant r == ApplyToolDeltas(calls, deltas[..i])
    {
      assert deltas[..i + 1][..i] == deltas[..i];
      var d := deltas[i];
      ghost var prev := r;
      if d.index !in r {
        r := r[d.index := NewToolCall(d.index)];
      }
      var accTool := r[d.index];
      assert accTool == FindToolCall(prev, d.index);
      accTool := MergeTool(accTool, d);
      r := r[d.index := accTool];
      i := i + 1;
    }
    assert deltas[..i] == deltas;
  }

  /** The tool-call loop of ToChatResponse: one ToolCall per accumulated tool call, in the order `order`. */
  method ConvertToolCalls(calls: map<int, AccumulatedToolCall>) returns (r: seq<ToolCall>, ghost order: seq<int>)
    ensures Enumerates(order, calls.Keys)
    ensures r == ConvertedCalls(calls, order)
  {
    var ks := MapOrder(calls.Keys);
    r := [];
    for i := 0 to |ks|
      invariant r == ConvertedCalls(calls, ks[..i])
    {
      assert ks[..i + 1][..i] == ks[..i];
      r := r + [ToToolCall(calls[ks[i]])];
    }
    assert ks[..|ks|] == ks;
    order := ks;
  }

  /** The keys of a map in the order a `range` loop visits them: each exactly once, in an unspecified order. */
  method MapOrder(ks: set<int>) returns (keys: seq<int>)
    ensures Enumerates(keys, ks)
  {
    keys := [];
    var rest := ks;
    while rest != {}
      invariant rest <= ks
      invariant forall k :: k in ks <==> k in rest || k in keys
      invariant forall n :: 0 <= n < |keys| ==> keys[n] in ks && keys[n] !in rest
      invariant forall i, j :: 0 <= i < j < |keys| ==> keys[i] != keys[j]
      decreases |rest|
    {
      var k := Pick(rest);
      keys := keys + [k];
      rest := rest - {k};
    }
  }

  // ----- lemmas: sizes of enumerations -----

  /** An enumeration of a set is as long as the set is large. */
  lemma {:induction false} EnumeratedSize(keys: seq<int>, ks: set<int>)
    requires Enumerates(keys, ks)
    ensures |keys| == |ks|
    decreases |keys|
  {
    if keys == [] {
      NoElementMeansEmpty(ks);
    } else {
      var last := keys[|keys| - 1];
      var init := keys[..|keys| - 1];
      assert Enumerates(init, ks - {last}) by {
        forall k | k in ks - {last}
          ensures k in init
        {
          var n :| 0 <= n < |keys| && keys[n] == k;
          assert n != |keys| - 1;
          assert init[n] == k;
        }
      }
      EnumeratedSize(init, ks - {last});
    }
  }

  /** The shape of a converted choice: its fields, with one tool call per accumulated tool call. */
  lemma ToChoiceShape(c: AccumulatedChoice, order: seq<int>)
    requires Enumerates(order, c.toolCalls.Keys)
    ensures var ch := ToChoice(c, order);
      ch.index == c.index && ch.finishReason == c.finishReason && ch.delta.None? &&
      ch.message.Some? && ch.message.value.role == c.role &&
      ch.message.value.content == Some(TextContent(c.content)) &&
      |ch.message.value.toolCalls| == |c.toolCalls| == |order| &&
      (forall n :: 0 <= n < |order| ==> ch.message.value.toolCalls[n] == ToToolCall(c.toolCalls[order[n]]))
  {
    EnumeratedSize(order, c.toolCalls.Keys);
    if |c.toolCalls| == 0 {
      assert order == [];
    } else {
      ConvertedCallsAt(c.toolCalls, order);
    }
  }

  /** Element n of the converted tool calls is built from the record at order[n]. */
  lemma {:induction false} ConvertedCallsAt(calls: map<int, AccumulatedToolCall>, order: seq<int>)
    requires forall n :: 0 <= n < |order| ==> order[n] in calls
    ensures forall n :: 0 <= n < |order| ==> ConvertedCalls(calls, order)[n] == ToToolCall(calls[order[n]])
    decreases |order|
  {
    if order != [] {
      ConvertedCallsAt(calls, order[..|order| - 1]);
    }
  }

  // ----- lemmas: reference definitions -----

  /** The last non-empty value of `vals`, or `init` when all are empty. */
  function LastNonEmpty(init: string, vals: seq<string>): (r: string)
    ensures r == init || (r != "" && r in vals)
    ensures (forall k :: 0 <= k < |vals| ==> vals[k] == "") ==> r == init
    decreases |vals|
  {
    if vals == [] then init
    else if vals[|vals| - 1] != "" then vals[|vals| - 1]
    else LastNonEmpty(init, vals[..|vals| - 1])
  }

  /** The last value of `vals` that ends generation, or `init` when there is none. */
  function LastFinished(init: FinishReason, vals: seq<FinishReason>): (r: FinishReason)
    ensures r == init || (IsFinished(r) && r in vals)
    ensures (forall k :: 0 <= k < |vals| ==> !IsFinished(vals[k])) ==> r == init
    decreases |vals|
  {
    if vals == [] then init
    else if IsFinished(vals[|vals| - 1]) then vals[|vals| - 1]
    else LastFinished(init, vals[..|vals| - 1])
  }

  /** The stream choices of all chat chunks, in order. */
  function AllChoices(chunks: seq<StreamChunk>): seq<StreamChoice>
    decreases |chunks|
  {
    if chunks == [] then []
    else
      var last := chunks[|chunks| - 1];
      AllChoices(chunks[..|chunks| - 1]) + (if last.Chat? then last.chunk.choices else [])
  }

  /** The stream choices for index i that carry a delta, in order. */
  function DeltasAt(scs: seq<StreamChoice>, i: int): seq<StreamChoice>
    decreases |scs|
  {
    if scs == [] then []
    else
      var last := scs[|scs| - 1];
      DeltasAt(scs[..|scs| - 1], i) + (if last.delta.Some? && last.index == i then [last] else [])
  }

  /** The concatenated delta contents. */
  function DeltaContents(scs: seq<StreamChoice>): string
    decreases |scs|
  {
    if scs == [] then ""
    else
      var last := scs[|scs| - 1];
      DeltaContents(scs[..|scs| - 1]) + (if last.delta.Some? then last.delta.value.content else "")
  }

  /** The delta roles (empty ones included), in order. */
  function DeltaRoles(scs: seq<StreamChoice>): seq<Role>
    decreases |scs|
  {
    if scs == [] then []
    else
      var last := scs[|scs| - 1];
      DeltaRoles(scs[..|scs| - 1]) + (if last.delta.Some? then [last.delta.value.role] else [])
  }

  /** The finish reasons of the choices that carry a delta, in order. */
  function DeltaFinishes(scs: seq<StreamChoice>): seq<FinishReason>
    decreases |scs|
  {
    if scs == [] then []
    else
      var last := scs[|scs| - 1];
      DeltaFinishes(scs[..|scs| - 1]) + (if last.delta.Some? then [last.finishReason] else [])
  }

  /** The tool-call deltas of all deltas, in order. */
  function DeltaToolCalls(scs: seq<StreamChoice>): seq<ToolCallDelta>
    decreases |scs|
  {
    if scs == [] then []
    else
      var last := scs[|scs| - 1];
      DeltaToolCalls(scs[..|scs| - 1]) + (if last.delta.Some? then last.delta.value.toolCalls else [])
  }

  /** The tool-call deltas for tool index j, in order. */
  function ToolDeltasAt(ds: seq<ToolCallDelta>, j: int): seq<ToolCallDelta>
    decreases |ds|
  {
    if ds == [] then []
    else
      var last := ds[|ds| - 1];
      ToolDeltasAt(ds[..|ds| - 1], j) + (if last.index == j then [last] else [])
  }

  /** The tool-call IDs (empty ones included), in order. */
  function DeltaIds(ds: seq<ToolCallDelta>): seq<string>
    decreases |ds|
  {
    if ds == [] then [] else DeltaIds(ds[..|ds| - 1]) + [ds[|ds| - 1].id]
  }

  /** The tool types (empty ones included), in order. */
  function DeltaTypes(ds: seq<ToolCallDelta>): seq<ToolType>
    decreases |ds|
  {
    if ds == [] then [] else DeltaTypes(ds[..|ds| - 1]) + [ds[|ds| - 1].toolType]
  }

  /** The function names of the deltas that carry a function, in order. */
  function DeltaNames(ds: seq<ToolCallDelta>): seq<string>
    decreases |ds|
  {
    if ds == [] then []
    else
      var last := ds[|ds| - 1];
      DeltaNames(ds[..|ds| - 1]) + (if last.fn.Some? then [last.fn.value.name] else [])
  }

  /** The concatenated argument fragments. */
  function DeltaArguments(ds: seq<ToolCallDelta>): string
    decreases |ds|
  {
    if ds == [] then ""
    else
      var last := ds[|ds| - 1];
      DeltaArguments(ds[..|ds| - 1]) + (if last.fn.Some? then last.fn.value.arguments else "")
  }

  /** One choice record folded over stream choices. */
  function FoldChoice(c: AccumulatedChoice, scs: seq<StreamChoice>): AccumulatedChoice
    decreases |scs|
  {
    if scs == [] then c else MergeChoiceDelta(FoldChoice(c, scs[..|scs| - 1]), scs[|scs| - 1])
  }

  /** One tool-call record folded over tool-call deltas. */
  function FoldTool(t: AccumulatedToolCall, ds: seq<ToolCallDelta>): AccumulatedToolCall
    decreases |ds|
  {
    if ds == [] then t else MergeToolDelta(FoldTool(t, ds[..|ds| - 1]), ds[|ds| - 1])
  }

  // ----- lemmas: tool calls -----

  /** Applying tool-call deltas in two batches is applying them all. */
  lemma {:induction false} ApplyToolDeltasAppend(calls: map<int, AccumulatedToolCall>, a: seq<ToolCallDelta>, b: seq<ToolCallDelta>)
    ensures ApplyToolDeltas(calls, a + b) == ApplyToolDeltas(ApplyToolDeltas(calls, a), b)
    decreases |b|
  {
    if b == [] {
      assert a + b == a;
    } else {
      var init := b[..|b| - 1];
      assert (a + b)[..|a + b| - 1] == a + init;
      assert (a + b)[|a + b| - 1] == b[|b| - 1];
      ApplyToolDeltasAppend(calls, a, init);
    }
  }

  /** Tool index j is present exactly when it was or some delta names it, and its record is the fold of those deltas. */
  lemma {:induction false} ApplyToolDeltasAt(calls: map<int, AccumulatedToolCall>, ds: seq<ToolCallDelta>, j: int)
    ensures j in ApplyToolDeltas(calls, ds) <==> j in calls || ToolDeltasAt(ds, j) != []
    ensures FindToolCall(ApplyToolDeltas(calls, ds), j) == FoldTool(FindToolCall(calls, j), ToolDeltasAt(ds, j))
    decreases |ds|
  {
    if ds != [] {
      var init := ds[..|ds| - 1];
      var d := ds[|ds| - 1];
      ApplyToolDeltasAt(calls, init, j);
      var prev := ToolDeltasAt(init, j);
      var before := ApplyToolDeltas(calls, init);
      var merged := MergeToolDelta(FindToolCall(before, d.index), d);
      assert ApplyToolDeltas(calls, ds) == before[d.index := merged];
      if d.index == j {
        assert ToolDeltasAt(ds, j) == prev + [d];
        assert (prev + [d])[..|prev|] == prev;
        assert FoldTool(FindToolCall(calls, j), prev + [d]) == MergeToolDelta(FoldTool(FindToolCall(calls, j), prev), d);
      } else {
        assert ToolDeltasAt(ds, j) == prev + [];
        assert prev + [] == prev;
      }
    }
  }

  /** ID, type and name are the last non-empty values; arguments are the concatenated fragments. */
  lemma FoldToolFields(t: AccumulatedToolCall, ds: seq<ToolCallDelta>)
    ensures FoldTool(t, ds).index == t.index
    ensures FoldTool(t, ds).id == LastNonEmpty(t.id, DeltaIds(ds))
    ensures FoldTool(t, ds).toolType == LastNonEmpty(t.toolType, DeltaTypes(ds))
    ensures FoldTool(t, ds).functionName == LastNonEmpty(t.functionName, DeltaNames(ds))
    ensures FoldTool(t, ds).arguments == t.arguments + DeltaArguments(ds)
  {
    FoldToolHeader(t, ds);
    FoldToolFunction(t, ds);
  }

  /** The index never changes; ID and type are the last non-empty values. */
  lemma {:induction false} FoldToolHeader(t: AccumulatedToolCall, ds: seq<ToolCallDelta>)
    ensures FoldTool(t, ds).index == t.index
    ensures FoldTool(t, ds).id == LastNonEmpty(t.id, DeltaIds(ds))
    ensures FoldTool(t, ds).toolType == LastNonEmpty(t.toolType, DeltaTypes(ds))
    decreases |ds|
  {
    if ds != [] {
      var init := ds[..|ds| - 1];
      var d := ds[|ds| - 1];
      FoldToolHeader(t, init);
      var ids := DeltaIds(init);
      assert (ids + [d.id])[..|ids|] == ids;
      var types := DeltaTypes(init);
      assert (types + [d.toolType])[..|types|] == types;
    }
  }

  /** The function name is the last non-empty one; the arguments are every fragment appended in order. */
  lemma {:induction false} FoldToolFunction(t: AccumulatedToolCall, ds: seq<ToolCallDelta>)
    ensures FoldTool(t, ds).functionName == LastNonEmpty(t.functionName, DeltaNames(ds))
    ensures FoldTool(t, ds).arguments == t.arguments + DeltaArguments(ds)
    decreases |ds|
  {
    if ds == [] {
      assert t.arguments + "" == t.arguments;
    } else {
      var init := ds[..|ds| - 1];
      var d := ds[|ds| - 1];
      FoldToolFunction(t, init);
      var names := DeltaNames(init);
      var args := DeltaArguments(init);
      if d.fn.Some? {
        assert (names + [d.fn.value.name])[..|names|] == names;
        assert (t.arguments + args) + d.fn.value.arguments == t.arguments + (args + d.fn.value.arguments);
        if d.fn.value.arguments == "" {
          assert args + "" == args;
        }
      } else {
        assert names + [] == names;
        assert args + "" == args;
      }
    }
  }

  // ----- lemmas: choices -----

  /** Applying stream choices in two batches is applying them all. */
  lemma {:induction false} ApplyChoicesAppend(m: map<int, AccumulatedChoice>, a: seq<StreamChoice>, b: seq<StreamChoice>)
    ensures ApplyChoices(m, a + b) == ApplyChoices(ApplyChoices(m, a), b)
    decreases |b|
  {
    if b == [] {
      assert a + b == a;
    } else {
      var init := b[..|b| - 1];
      assert (a + b)[..|a + b| - 1] == a + init;
      assert (a + b)[|a + b| - 1] == b[|b| - 1];
      ApplyChoicesAppend(m, a, init);
    }
  }

  /**
   * Index i is present exactly when it was or some choice with a delta names it (a choice
   * whose delta is nil creates nothing), and its record is the fold of those choices.
   */
  lemma {:induction false} ApplyChoicesAt(m: map<int, AccumulatedChoice>, scs: seq<StreamChoice>, i: int)
    ensures i in ApplyChoices(m, scs) <==> i in m || DeltasAt(scs, i) != []
    ensures FindChoice(ApplyChoices(m, scs), i) == FoldChoice(FindChoice(m, i), DeltasAt(scs, i))
    decreases |scs|
  {
    if scs != [] {
      var init := scs[..|scs| - 1];
      var sc := scs[|scs| - 1];
      ApplyChoicesAt(m, init, i);
      var prev := DeltasAt(init, i);
      if sc.delta.Some? && sc.index == i {
        assert DeltasAt(scs, i) == prev + [sc];
        assert (prev + [sc])[..|prev|] == prev;
      } else {
        assert DeltasAt(scs, i) == prev + [];
        assert prev + [] == prev;
      }
    }
  }

  /**
   * Content is the concatenation of the delta contents; role is the last non-empty role; the
   * finish reason is the last one that ends generation; tool calls are all tool deltas applied in order.
   */
  lemma FoldChoiceFields(c: AccumulatedChoice, scs: seq<StreamChoice>)
    ensures FoldChoice(c, scs).index == c.index
    ensures FoldChoice(c, scs).content == c.content + DeltaContents(scs)
    ensures FoldChoice(c, scs).role == LastNonEmpty(c.role, DeltaRoles(scs))
    ensures FoldChoice(c, scs).finishReason == LastFinished(c.finishReason, DeltaFinishes(scs))
    ensures FoldChoice(c, scs).toolCalls == ApplyToolDeltas(c.toolCalls, DeltaToolCalls(scs))
  {
    FoldChoiceText(c, scs);
    FoldChoiceStatus(c, scs);
    FoldChoiceTools(c, scs);
  }

  /** The index never changes; the content is every delta's content appended in order. */
  lemma {:induction false} FoldChoiceText(c: AccumulatedChoice, scs: seq<StreamChoice>)
    ensures FoldChoice(c, scs).index == c.index
    ensures FoldChoice(c, scs).content == c.content + DeltaContents(scs)
    decreases |scs|
  {
    if scs == [] {
      assert c.content + "" == c.content;
    } else {
      var init := scs[..|scs| - 1];
      var sc := scs[|scs| - 1];
      FoldChoiceText(c, init);
      var text := DeltaContents(init);
      if sc.delta.Some? {
        var d := sc.delta.value;
        assert (c.content + text) + d.content == c.content + (text + d.content);
        if d.content == "" {
          assert text + "" == text;
        }
      } else {
        assert text + "" == text;
      }
    }
  }

  /** The role is the last non-empty role; the finish reason the last one that ends generation. */
  lemma {:induction false} FoldChoiceStatus(c: AccumulatedChoice, scs: seq<StreamChoice>)
    ensures FoldChoice(c, scs).role == LastNonEmpty(c.role, DeltaRoles(scs))
    ensures FoldChoice(c, scs).finishReason == LastFinished(c.finishReason, DeltaFinishes(scs))
    decreases |scs|
  {
    if scs != [] {
      var init := scs[..|scs| - 1];
      var sc := scs[|scs| - 1];
      FoldChoiceStatus(c, init);
      var roles := DeltaRoles(init);
      var fins := DeltaFinishes(init);
      if sc.delta.Some? {
        assert (roles + [sc.delta.value.role])[..|roles|] == roles;
        assert (fins + [sc.finishReason])[..|fins|] == fins;
      } else {
        assert roles + [] == roles;
        assert fins + [] == fins;
      }
    }
  }

  /** The tool calls are every tool delta of the deltas applied in order. */
  lemma {:induction false} FoldChoiceTools(c: AccumulatedChoice, scs: seq<StreamChoice>)
    ensures FoldChoice(c, scs).toolCalls == ApplyToolDeltas(c.toolCalls, DeltaToolCalls(scs))
    decreases |scs|
  {
    if scs != [] {
      var init := scs[..|scs| - 1];
      var sc := scs[|scs| - 1];
      FoldChoiceTools(c, init);
      var tools := DeltaToolCalls(init);
      if sc.delta.Some? {
        ApplyToolDeltasAppend(c.toolCalls, tools, sc.delta.value.toolCalls);
      } else {
        assert tools + [] == tools;
      }
    }
  }

  // ----- lemmas: whole streams -----

  /** Across chunks, the choice map is the choices of all chat chunks applied in order. */
  lemma {:induction false} StepsChoices(s: AccState, chunks: seq<StreamChunk>)
    ensures Steps(s, chunks).choices == ApplyChoices(s.choices, AllChoices(chunks))
    decreases |chunks|
  {
    if chunks != [] {
      var init := chunks[..|chunks| - 1];
      var last := chunks[|chunks| - 1];
      StepsChoices(s, init);
      if last.Chat? {
        ApplyChoicesAppend(s.choices, AllChoices(init), last.chunk.choices);
      } else {
        assert AllChoices(init) + [] == AllChoices(init);
      }
    }
  }

  /**
   * After any sequence of chunks, choice index i is present exactly when it was or some chunk
   * carried a delta for it, and then its content is the old content followed by every delta's
   * content in chunk order, its role is the last non-empty role, its finish reason the last one
   * that is neither "" nor "null", and its tool calls are all its tool deltas applied in order.
   */
  lemma StreamChoiceAt(s: AccState, chunks: seq<StreamChunk>, i: int)
    ensures var ds := DeltasAt(AllChoices(chunks), i);
      var after := Steps(s, chunks).choices;
      var before := FindChoice(s.choices, i);
      (i in after <==> i in s.choices || ds != []) &&
      FindChoice(after, i).index == before.index &&
      FindChoice(after, i).content == before.content + DeltaContents(ds) &&
      FindChoice(after, i).role == LastNonEmpty(before.role, DeltaRoles(ds)) &&
      FindChoice(after, i).finishReason == LastFinished(before.finishReason, DeltaFinishes(ds)) &&
      FindChoice(after, i).toolCalls == ApplyToolDeltas(before.toolCalls, DeltaToolCalls(ds))
  {
    StepsChoices(s, chunks);
    ApplyChoicesAt(s.choices, AllChoices(chunks), i);
    FoldChoiceFields(FindChoice(s.choices, i), DeltasAt(AllChoices(chunks), i));
  }

  /**
   * Inside one choice record, tool index j is present exactly when it was or some tool delta
   * named it, and then its arguments are the old ones followed by every fragment in order, and
   * its ID, type and function name are the last non-empty values.
   */
  lemma ToolCallAt(calls: map<int, AccumulatedToolCall>, ds: seq<ToolCallDelta>, j: int)
    ensures var tds := ToolDeltasAt(ds, j);
      var after := ApplyToolDeltas(calls, ds);
      var before := FindToolCall(calls, j);
      (j in after <==> j in calls || tds != []) &&
      FindToolCall(after, j).index == before.index &&
      FindToolCall(after, j).arguments == before.arguments + DeltaArguments(tds) &&
      FindToolCall(after, j).id == LastNonEmpty(before.id, DeltaIds(tds)) &&
      FindToolCall(after, j).toolType == LastNonEmpty(before.toolType, DeltaTypes(tds)) &&
      FindToolCall(after, j).functionName == LastNonEmpty(before.functionName, DeltaNames(tds))
  {
    ApplyToolDeltasAt(calls, ds, j);
    FoldToolFields(FindToolCall(calls, j), ToolDeltasAt(ds, j));
  }

  /** The usages carried by the chat chunks, in order. */
  function ChunkUsages(chunks: seq<StreamChunk>): seq<UsageCounts>
    decreases |chunks|
  {
    if chunks == [] then []
    else
      var last := chunks[|chunks| - 1];
      ChunkUsages(chunks[..|chunks| - 1]) +
      (if last.Chat? && last.chunk.usage.Some? then [last.chunk.usage.value] else [])
  }

  /** The field-wise sum of a list of usages. */
  function Total(us: seq<UsageCounts>): UsageCounts
    decreases |us|
  {
    if us == [] then ZeroUsage else Plus(Total(us[..|us| - 1]), us[|us| - 1])
  }

  /** The usage a chunk contributes: nil for chunks of other implementations. */
  function UsageOf(chunk: StreamChunk): Option<UsageCounts> {
    if chunk.Chat? then chunk.chunk.usage else None
  }

  /** The usage after the chunks: AddUsage applied to each chunk's usage in turn. */
  function UsageAfter(u: Option<UsageCounts>, chunks: seq<StreamChunk>): Option<UsageCounts>
    decreases |chunks|
  {
    if chunks == [] then u else AddUsage(UsageAfter(u, chunks[..|chunks| - 1]), UsageOf(chunks[|chunks| - 1]))
  }

  /** The accumulator's usage evolves on its own, whatever happens to the choices. */
  lemma {:induction false} StepsUsageAfter(s: AccState, chunks: seq<StreamChunk>)
    ensures Steps(s, chunks).usage == UsageAfter(s.usage, chunks)
    decreases |chunks|
  {
    if chunks != [] {
      StepsUsageAfter(s, chunks[..|chunks| - 1]);
    }
  }

  /** The usage fold: unchanged until some usage arrives, then the old usage (zero if nil) plus their sum. */
  lemma {:induction false} UsageAfterTotal(u: Option<UsageCounts>, chunks: seq<StreamChunk>)
    ensures ChunkUsages(chunks) == [] ==> UsageAfter(u, chunks) == u
    ensures ChunkUsages(chunks) != [] ==>
              UsageAfter(u, chunks) == Some(Plus(u.GetOr(ZeroUsage), Total(ChunkUsages(chunks))))
    decreases |chunks|
  {
    if chunks != [] {
      var init := chunks[..|chunks| - 1];
      var last := chunks[|chunks| - 1];
      UsageAfterTotal(u, init);
      var us := ChunkUsages(init);
      if last.Chat? && last.chunk.usage.Some? {
        var v := last.chunk.usage.value;
        assert ChunkUsages(chunks) == us + [v];
        assert (us + [v])[..|us|] == us;
        assert Total(us + [v]) == Plus(Total(us), v);
        assert UsageAfter(u, chunks) == AddUsage(UsageAfter(u, init), Some(v));
        if us == [] {
          PlusZero(v);
        } else {
          PlusOrderIrrelevant(u.GetOr(ZeroUsage), Total(us), v);
        }
      } else {
        assert ChunkUsages(chunks) == us + [];
        assert us + [] == us;
      }
    }
  }

  /** Usage stays as it was until a chunk carries usage; after that it is the old usage (zero if nil) plus their sum. */
  lemma StepsUsage(s: AccState, chunks: seq<StreamChunk>)
    ensures ChunkUsages(chunks) == [] ==> Steps(s, chunks).usage == s.usage
    ensures ChunkUsages(chunks) != [] ==>
              Steps(s, chunks).usage == Some(Plus(s.usage.GetOr(ZeroUsage), Total(ChunkUsages(chunks))))
  {
    StepsUsageAfter(s, chunks);
    UsageAfterTotal(s.usage, chunks);
  }

  /** The last chat chunk, if any. */
  function LastChat(chunks: seq<StreamChunk>): Option<ChatStreamChunk>
    decreases |chunks|
  {
    if chunks == [] then None
    else if chunks[|chunks| - 1].Chat? then Some(chunks[|chunks| - 1].chunk)
    else LastChat(chunks[..|chunks| - 1])
  }

  /** ID, model, creation time and fingerprint are the last chat chunk's, even when empty. */
  lemma {:induction false} StepsHeader(s: AccState, chunks: seq<StreamChunk>)
    ensures LastChat(chunks).None? ==>
              var t := Steps(s, chunks);
              t.id == s.id && t.model == s.model && t.created == s.created && t.systemFingerprint == s.systemFingerprint
    ensures LastChat(chunks).Some? ==>
              var t := Steps(s, chunks);
              var c := LastChat(chunks).value;
              t.id == c.id && t.model == c.model && t.created == c.created && t.systemFingerprint == c.systemFingerprint
    decreases |chunks|
  {
    if chunks != [] {
      StepsHeader(s, chunks[..|chunks| - 1]);
    }
  }

  /** A stream that starts empty has nil usage exactly until some chunk carries usage, and then their sum. */
  lemma StreamUsage(chunks: seq<StreamChunk>)
    ensures Steps(EmptyAcc, chunks).usage.None? <==> ChunkUsages(chunks) == []
    ensures ChunkUsages(chunks) != [] ==> Steps(EmptyAcc, chunks).usage == Some(Total(ChunkUsages(chunks)))
  {
    StepsUsage(EmptyAcc, chunks);
    PlusZero(Total(ChunkUsages(chunks)));
  }

  // ----- lemmas: keys -----

  /** Every tool-call record is stored under its own index. */
  ghost predicate ToolsKeyed(calls: map<int, AccumulatedToolCall>) {
    forall j :: j in calls ==> calls[j].index == j
  }

  /** Applying tool deltas keeps every tool-call record under its own index. */
  lemma {:induction false} ApplyToolDeltasKeyed(calls: map<int, AccumulatedToolCall>, ds: seq<ToolCallDelta>)
    requires ToolsKeyed(calls)
    ensures ToolsKeyed(ApplyToolDeltas(calls, ds))
    decreases |ds|
  {
    if ds != [] {
      ApplyToolDeltasKeyed(calls, ds[..|ds| - 1]);
    }
  }

  /** Applying stream choices keeps every record under its own index. */
  lemma {:induction false} ApplyChoicesKeyed(m: map<int, AccumulatedChoice>, scs: seq<StreamChoice>)
    requires WellKeyed(m)
    ensures WellKeyed(ApplyChoices(m, scs))
    decreases |scs|
  {
    if scs != [] {
      var init := scs[..|scs| - 1];
      var sc := scs[|scs| - 1];
      ApplyChoicesKeyed(m, init);
      if sc.delta.Some? {
        var c := FindChoice(ApplyChoices(m, init), sc.index);
        assert ToolsKeyed(c.toolCalls);
        ApplyToolDeltasKeyed(c.toolCalls, sc.delta.value.toolCalls);
      }
    }
  }

  /** Add keeps every record under its own index (the accumulator's Valid). */
  lemma StepKeepsWellKeyed(s: AccState, chunk: StreamChunk)
    requires WellKeyed(s.choices)
    ensures WellKeyed(Step(s, chunk).choices)
  {
    if chunk.Chat? {
      ApplyChoicesKeyed(s.choices, chunk.chunk.choices);
    }
  }
}
