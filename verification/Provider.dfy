// One conversation, two wire formats. Each encoder is paired with a decoder, and the
// theorems say what survives the trip and when both formats carry the same thing.
module Provider {
  import opened Api

  datatype ToolCall = ToolCall(id: string, name: string, arguments: string)

  datatype Message = Message(role: string, content: string, toolCallId: string, toolName: string,
    toolCalls: seq<ToolCall>)

  datatype Request = Request(messages: seq<Message>, systemInstruction: string, prompt: string)

  const SYSTEM := "system"
  const TOOL := "tool"
  const USER := "user"
  const GAP := "\n\n"

  function Plain(role: string, content: string): Message {
    Message(role, content, "", "", [])
  }

  // ---- requestMessages ----

  function FirstSystem(ms: seq<Message>): (i: nat)
    ensures i <= |ms| && (i < |ms| ==> ms[i].role == SYSTEM)
    ensures forall j :: 0 <= j < i ==> ms[j].role != SYSTEM
  {
    if ms == [] || ms[0].role == SYSTEM then 0 else 1 + FirstSystem(ms[1..])
  }

  function Prefixed(m: Message, instruction: string): Message {
    m.(content := if m.content == "" then instruction else instruction + GAP + m.content)
  }

  function Effective(req: Request): seq<Message> {
    var ms, si := req.messages, req.systemInstruction;
    if ms == [] then
      (if si == "" then [] else [Plain(SYSTEM, si)]) + (if req.prompt == "" then [] else [Plain(USER, req.prompt)])
    else if si == "" then ms
    else
      var i := FirstSystem(ms);
      if i < |ms| then ms[i := Prefixed(ms[i], si)] else [Plain(SYSTEM, si)] + ms
  }

  method RequestMessages(req: Request) returns (messages: seq<Message>)
    ensures messages == Effective(req)
  {
    if |req.messages| > 0 {
      messages := req.messages;
      if req.systemInstruction != "" {
        for i := 0 to |messages|
          invariant messages == req.messages
          invariant forall j :: 0 <= j < i ==> messages[j].role != SYSTEM
        {
          if messages[i].role == SYSTEM {
            messages := messages[i := Prefixed(messages[i], req.systemInstruction)];
            return;
          }
        }
        messages := [Plain(SYSTEM, req.systemInstruction)] + messages;
      }
      return;
    }
    messages := [];
    if req.systemInstruction != "" { messages := messages + [Plain(SYSTEM, req.systemInstruction)]; }
    if req.prompt != "" { messages := messages + [Plain(USER, req.prompt)]; }
  }

  // Providers reject an absent argument object, so empty arguments go out as {}.
  function Filled(call: ToolCall): ToolCall {
    call.(arguments := if call.arguments == "" then "{}" else call.arguments)
  }

  function FilledAll(calls: seq<ToolCall>): (r: seq<ToolCall>)
    ensures |r| == |calls| && forall i :: 0 <= i < |r| ==> r[i] == Filled(calls[i])
  {
    seq(|calls|, i requires 0 <= i < |calls| => Filled(calls[i]))
  }

  // ---- the OpenAI format ----

  datatype OpenAIMessage = OpenAIMessage(role: string, content: Option<string>, toolCallId: Option<string>,
                                         toolCalls: Option<seq<ToolCall>>)

  function OpenAIOf(m: Message): OpenAIMessage {
    OpenAIMessage(m.role,
                  if m.content != "" || m.toolCalls == [] then Some(m.content) else None,
                  if m.role == TOOL then Some(m.toolCallId) else None,
                  if m.toolCalls != [] then Some(FilledAll(m.toolCalls)) else None)
  }

  function OpenAIEncoded(ms: seq<Message>): seq<OpenAIMessage> {
    if ms == [] then [] else [OpenAIOf(ms[0])] + OpenAIEncoded(ms[1..])
  }

  lemma {:induction false} OpenAIEncodedSnoc(ms: seq<Message>, m: Message)
    ensures OpenAIEncoded(ms + [m]) == OpenAIEncoded(ms) + [OpenAIOf(m)]
  {
    if ms == [] {
      assert [m][1..] == [];
    } else {
      assert (ms + [m])[1..] == ms[1..] + [m];
      OpenAIEncodedSnoc(ms[1..], m);
    }
  }

  method OpenAIMessages(req: Request) returns (encoded: seq<OpenAIMessage>)
    ensures encoded == OpenAIEncoded(Effective(req))
  {
    var messages := RequestMessages(req);
    encoded := [];
    for i := 0 to |messages|
      invariant encoded == OpenAIEncoded(messages[..i])
    {
      var message := messages[i];
      OpenAIEncodedSnoc(messages[..i], message);
      assert messages[..i + 1] == messages[..i] + [message];
      var item := OpenAIMessage(message.role, None, None, None);
      if message.content != "" || |message.toolCalls| == 0 { item := item.(content := Some(message.content)); }
      if message.role == TOOL { item := item.(toolCallId := Some(message.toolCallId)); }
      if |message.toolCalls| > 0 {
        var calls := [];
        for j := 0 to |message.toolCalls|
          invariant |calls| == j && forall k :: 0 <= k < j ==> calls[k] == Filled(message.toolCalls[k])
        {
          var call := message.toolCalls[j];
          var arguments := call.arguments;
          if |arguments| == 0 { arguments := "{}"; }
          calls := calls + [ToolCall(call.id, call.name, arguments)];
        }
        assert calls == FilledAll(message.toolCalls);
        item := item.(toolCalls := Some(calls));
      }
      encoded := encoded + [item];
    }
    assert messages[..|messages|] == messages;
  }

  function OrElse<T>(o: Option<T>, default: T): T {
    if o.Some? then o.value else default
  }

  function OpenAIDecoded(items: seq<OpenAIMessage>): seq<Message> {
    if items == [] then []
    else
      [Message(items[0].role, OrElse(items[0].content, ""), OrElse(items[0].toolCallId, ""), "",
        OrElse(items[0].toolCalls, []))]
      + OpenAIDecoded(items[1..])
  }

  // ---- the Anthropic format ----

  datatype Block = Text(text: string) | ToolUse(call: ToolCall) | ToolResult(id: string, content: string)

  datatype Turn = Turn(role: string, blocks: seq<Block>)

  // The length of the run of tool messages a conversation starts with.
  function ToolRun(ms: seq<Message>): (n: nat)
    ensures n <= |ms| && (n < |ms| ==> ms[n].role != TOOL)
    ensures forall j :: 0 <= j < n ==> ms[j].role == TOOL
  {
    if ms == [] || ms[0].role != TOOL then 0 else 1 + ToolRun(ms[1..])
  }

  function Results(ms: seq<Message>): (blocks: seq<Block>)
    ensures |blocks| == |ms|
    ensures forall i :: 0 <= i < |ms| ==> blocks[i] == ToolResult(ms[i].toolCallId, ms[i].content)
  {
    seq(|ms|, i requires 0 <= i < |ms| => ToolResult(ms[i].toolCallId, ms[i].content))
  }

  function Uses(calls: seq<ToolCall>): (blocks: seq<Block>)
    ensures |blocks| == |calls| && forall i :: 0 <= i < |calls| ==> blocks[i] == ToolUse(Filled(calls[i]))
  {
    seq(|calls|, i requires 0 <= i < |calls| => ToolUse(Filled(calls[i])))
  }

  function BlocksOf(m: Message): seq<Block> {
    if m.content == "" && m.toolCalls == [] then [Text("")]
    else (if m.content == "" then [] else [Text(m.content)]) + Uses(m.toolCalls)
  }

  // A run of tool messages becomes one user turn; system messages leave the list.
  function AnthropicEncoded(ms: seq<Message>): seq<Turn>
    decreases |ms|
  {
    if ms == [] then []
    else if ms[0].role == SYSTEM then AnthropicEncoded(ms[1..])
    else if ms[0].role == TOOL then
      var n := ToolRun(ms);
      [Turn(USER, Results(ms[..n]))] + AnthropicEncoded(ms[n..])
    else [Turn(ms[0].role, BlocksOf(ms[0]))] + AnthropicEncoded(ms[1..])
  }

  // The system text so far, extended by the system messages of ms.
  function SystemText(written: string, ms: seq<Message>): string
    decreases |ms|
  {
    if ms == [] then written
    else if ms[0].role != SYSTEM then SystemText(written, ms[1..])
    else SystemText((if written == "" then "" else written + GAP) + ms[0].content, ms[1..])
  }

  method BlocksFor(message: Message) returns (blocks: seq<Block>)
    ensures blocks == BlocksOf(message)
  {
    blocks := [];
    if message.content != "" { blocks := [Text(message.content)]; }
    ghost var start := blocks;
    for j := 0 to |message.toolCalls|
      invariant blocks == start + Uses(message.toolCalls[..j])
    {
      var call := message.toolCalls[j];
      var input := call.arguments;
      if |input| == 0 { input := "{}"; }
      assert Uses(message.toolCalls[..j + 1])
        == Uses(message.toolCalls[..j]) + [ToolUse(ToolCall(call.id, call.name, input))];
      blocks := blocks + [ToolUse(ToolCall(call.id, call.name, input))];
    }
    assert message.toolCalls[..|message.toolCalls|] == message.toolCalls;
    if |blocks| == 0 { blocks := [Text("")]; }
  }

  // Collects the run of tool results starting at message i.
  method ToolResultsFrom(messages: seq<Message>, i: nat) returns (blocks: seq<Block>, next: nat)
    requires i < |messages| && messages[i].role == TOOL
    ensures next == i + ToolRun(messages[i..]) && i < next <= |messages|
    ensures blocks == Results(messages[i..next])
  {
    blocks, next := [], i;
    while next < |messages| && messages[next].role == TOOL
      invariant i <= next <= |messages| && blocks == Results(messages[i..next])
      invariant forall j :: i <= j < next ==> messages[j].role == TOOL
    {
      blocks := blocks + [ToolResult(messages[next].toolCallId, messages[next].content)];
      next := next + 1;
    }
    ToolRunIs(messages[i..], next - i);
  }

  lemma ToolRunIs(ms: seq<Message>, n: nat)
    requires n <= |ms| && (n < |ms| ==> ms[n].role != TOOL)
    requires forall j :: 0 <= j < n ==> ms[j].role == TOOL
    ensures ToolRun(ms) == n
  {
  }

  lemma UnfoldSystem(ms: seq<Message>, i: nat, written: string)
    requires i < |ms| && ms[i].role == SYSTEM
    ensures AnthropicEncoded(ms[i..]) == AnthropicEncoded(ms[i + 1..])
    ensures SystemText(written, ms[i..])
         == SystemText((if written == "" then "" else written + GAP) + ms[i].content, ms[i + 1..])
  {
    assert ms[i..][1..] == ms[i + 1..];
  }

  lemma UnfoldTools(ms: seq<Message>, i: nat, next: nat, written: string)
    requires i < |ms| && ms[i].role == TOOL && next == i + ToolRun(ms[i..])
    ensures AnthropicEncoded(ms[i..]) == [Turn(USER, Results(ms[i..next]))] + AnthropicEncoded(ms[next..])
    ensures SystemText(written, ms[i..]) == SystemText(written, ms[next..])
  {
    SliceOfRest(ms, i, next);
    var rest := ms[i..];
    assert AnthropicEncoded(rest) == [Turn(USER, Results(rest[..next - i]))] + AnthropicEncoded(rest[next - i..]);
    SystemSkipsToolRun(written, rest, next - i);
  }

  lemma SliceOfRest<T>(s: seq<T>, i: nat, next: nat)
    requires i <= next <= |s|
    ensures s[i..][..next - i] == s[i..next] && s[i..][next - i..] == s[next..]
  {
  }

  lemma UnfoldOther(ms: seq<Message>, i: nat, written: string)
    requires i < |ms| && ms[i].role != TOOL && ms[i].role != SYSTEM
    ensures AnthropicEncoded(ms[i..]) == [Turn(ms[i].role, BlocksOf(ms[i]))] + AnthropicEncoded(ms[i + 1..])
    ensures SystemText(written, ms[i..]) == SystemText(written, ms[i + 1..])
  {
    assert ms[i..][1..] == ms[i + 1..];
  }

  // One turn of the outer loop, at message i.
  method EncodeNext(messages: seq<Message>, i: nat, written: string, done: seq<Turn>)
    returns (system: string, encoded: seq<Turn>, next: nat)
    requires i < |messages|
    ensures i < next <= |messages|
    ensures encoded + AnthropicEncoded(messages[next..]) == done + AnthropicEncoded(messages[i..])
    ensures SystemText(system, messages[next..]) == SystemText(written, messages[i..])
  {
    var message := messages[i];
    system, encoded, next := written, done, i + 1;
    if message.role == SYSTEM {
      UnfoldSystem(messages, i, written);
      if |system| > 0 { system := system + GAP; }
      system := system + message.content;
    } else if message.role == TOOL {
      var blocks;
      blocks, next := ToolResultsFrom(messages, i);
      UnfoldTools(messages, i, next, written);
      encoded := encoded + [Turn(USER, blocks)];
    } else {
      UnfoldOther(messages, i, written);
      var blocks := BlocksFor(message);
      encoded := encoded + [Turn(message.role, blocks)];
    }
  }

  method AnthropicMessages(req: Request) returns (system: string, encoded: seq<Turn>)
    ensures encoded == AnthropicEncoded(Effective(req))
    ensures system == SystemText("", Effective(req))
  {
    var messages := RequestMessages(req);
    system, encoded := "", [];
    var i := 0;
    assert messages[0..] == messages;
    while i < |messages|
      invariant 0 <= i <= |messages|
      invariant encoded + AnthropicEncoded(messages[i..]) == AnthropicEncoded(messages)
      invariant SystemText(system, messages[i..]) == SystemText("", messages)
      decreases |messages| - i
    {
      system, encoded, i := EncodeNext(messages, i, system, encoded);
    }
    assert messages[i..] == [];
    if |system| == 0 {
      FallbackChangesNothing(req);
      system := system + req.systemInstruction;
    }
  }

  lemma {:induction false} SystemSkipsToolRun(written: string, ms: seq<Message>, n: nat)
    requires n <= |ms| && forall j :: 0 <= j < n ==> ms[j].role == TOOL
    ensures SystemText(written, ms) == SystemText(written, ms[n..])
  {
    if n > 0 {
      SystemSkipsToolRun(written, ms[1..], n - 1);
      assert ms[1..][n - 1..] == ms[n..];
    }
  }

  // ---- the system instruction ----

  lemma {:induction false} SystemTextOnlyGrows(written: string, ms: seq<Message>)
    ensures written <= SystemText(written, ms)
    decreases |ms|
  {
    if ms != [] {
      if ms[0].role != SYSTEM {
        SystemTextOnlyGrows(written, ms[1..]);
      } else {
        SystemTextOnlyGrows((if written == "" then "" else written + GAP) + ms[0].content, ms[1..]);
      }
    }
  }

  lemma {:induction false} SystemTextStartsWithFirst(ms: seq<Message>, i: nat)
    requires i < |ms| && ms[i].role == SYSTEM && forall j :: 0 <= j < i ==> ms[j].role != SYSTEM
    ensures ms[i].content <= SystemText("", ms)
    decreases |ms|
  {
    if i == 0 {
      SystemTextOnlyGrows(ms[0].content, ms[1..]);
      assert "" + ms[0].content == ms[0].content;
    } else {
      SystemTextStartsWithFirst(ms[1..], i - 1);
    }
  }

  // The system text always starts with the request's instruction.
  lemma InstructionComesFirst(req: Request)
    ensures req.systemInstruction <= SystemText("", Effective(req))
  {
    var ms, si := Effective(req), req.systemInstruction;
    if si != "" {
      var i := if req.messages != []
        && FirstSystem(req.messages) < |req.messages| then FirstSystem(req.messages) else 0;
      assert si <= ms[i].content;
      SystemTextStartsWithFirst(ms, i);
    }
  }

  // The last-resort fallback runs only when there is no instruction to fall back on.
  lemma FallbackChangesNothing(req: Request)
    ensures SystemText("", Effective(req)) == "" ==> req.systemInstruction == ""
  {
    InstructionComesFirst(req);
  }

  // ---- what survives the Anthropic encoding ----

  function TextOf(blocks: seq<Block>): string {
    if blocks != [] && blocks[0].Text? then blocks[0].text else ""
  }

  function CallsOf(blocks: seq<Block>): seq<ToolCall> {
    if blocks == [] then []
    else (if blocks[0].ToolUse? then [blocks[0].call] else []) + CallsOf(blocks[1..])
  }

  function ResultsDecoded(blocks: seq<Block>): seq<Message> {
    if blocks == [] then []
    else
      (if blocks[0].ToolResult? then [Message(TOOL, blocks[0].content, blocks[0].id, "", [])] else [])
      + ResultsDecoded(blocks[1..])
  }

  function TurnDecoded(t: Turn): seq<Message> {
    if t.blocks != [] && t.blocks[0].ToolResult? then ResultsDecoded(t.blocks)
    else [Message(t.role, TextOf(t.blocks), "", "", CallsOf(t.blocks))]
  }

  function AnthropicDecoded(ts: seq<Turn>): seq<Message> {
    if ts == [] then [] else TurnDecoded(ts[0]) + AnthropicDecoded(ts[1..])
  }

  // A message without the fields that mean nothing for its role.
  function Essence(m: Message): Message {
    if m.role == TOOL then Message(TOOL, m.content, m.toolCallId, "", [])
    else Message(m.role, m.content, "", "", FilledAll(m.toolCalls))
  }

  function Essences(ms: seq<Message>): seq<Message> {
    if ms == [] then []
    else (if ms[0].role == SYSTEM then [] else [Essence(ms[0])]) + Essences(ms[1..])
  }

  lemma {:induction false} EssencesSplit(a: seq<Message>, b: seq<Message>)
    ensures Essences(a + b) == Essences(a) + Essences(b)
  {
    if a == [] {
      assert a + b == b;
    } else {
      assert (a + b)[1..] == a[1..] + b;
      EssencesSplit(a[1..], b);
    }
  }

  lemma {:induction false} CallsOfUses(calls: seq<ToolCall>)
    ensures CallsOf(Uses(calls)) == FilledAll(calls)
  {
    if calls != [] {
      assert Uses(calls)[1..] == Uses(calls[1..]);
      CallsOfUses(calls[1..]);
    }
  }

  lemma MessageTurnDecodes(m: Message)
    requires m.role != TOOL
    ensures TurnDecoded(Turn(m.role, BlocksOf(m))) == [Essence(m)]
  {
    CallsOfUses(m.toolCalls);
    if m.content != "" {
      assert ([Text(m.content)] + Uses(m.toolCalls))[1..] == Uses(m.toolCalls);
      assert [] + CallsOf(Uses(m.toolCalls)) == CallsOf(Uses(m.toolCalls));
    } else {
      assert [] + Uses(m.toolCalls) == Uses(m.toolCalls);
      assert m.toolCalls == [] ==> BlocksOf(m)[1..] == [];
    }
  }

  lemma {:induction false} ToolTurnDecodes(ms: seq<Message>)
    requires forall j :: 0 <= j < |ms| ==> ms[j].role == TOOL
    ensures ResultsDecoded(Results(ms)) == Essences(ms)
  {
    if ms != [] {
      assert Results(ms)[1..] == Results(ms[1..]);
      ToolTurnDecodes(ms[1..]);
    }
  }

  // Decoding gives back every non-system message, in order, up to {} for empty arguments.
  lemma {:induction false} AnthropicRoundTrip(ms: seq<Message>)
    ensures AnthropicDecoded(AnthropicEncoded(ms)) == Essences(ms)
    decreases |ms|
  {
    if ms == [] {
    } else if ms[0].role == SYSTEM {
      AnthropicRoundTrip(ms[1..]);
      assert [] + Essences(ms[1..]) == Essences(ms[1..]);
    } else if ms[0].role == TOOL {
      var n := ToolRun(ms);
      var first, rest := Turn(USER, Results(ms[..n])), AnthropicEncoded(ms[n..]);
      ToolTurnDecodes(ms[..n]);
      AnthropicRoundTrip(ms[n..]);
      EssencesSplit(ms[..n], ms[n..]);
      assert ms[..n] + ms[n..] == ms;
      assert ([first] + rest)[1..] == rest;
    } else {
      MessageTurnDecodes(ms[0]);
      AnthropicRoundTrip(ms[1..]);
      var first, rest := Turn(ms[0].role, BlocksOf(ms[0])), AnthropicEncoded(ms[1..]);
      assert ([first] + rest)[1..] == rest;
    }
  }

  // ---- what survives the OpenAI encoding ----

  function OpenAIEssence(m: Message): Message {
    Message(m.role, m.content, if m.role == TOOL then m.toolCallId else "", "", FilledAll(m.toolCalls))
  }

  function OpenAIEssences(ms: seq<Message>): seq<Message> {
    if ms == [] then [] else [OpenAIEssence(ms[0])] + OpenAIEssences(ms[1..])
  }

  lemma {:induction false} OpenAIRoundTrip(ms: seq<Message>)
    ensures OpenAIDecoded(OpenAIEncoded(ms)) == OpenAIEssences(ms)
  {
    if ms != [] {
      OpenAIRoundTrip(ms[1..]);
      assert OpenAIEncoded(ms)[1..] == OpenAIEncoded(ms[1..]);
      assert ms[0].toolCalls == [] ==> FilledAll(ms[0].toolCalls) == [];
    }
  }

  function WithoutSystem(ms: seq<Message>): seq<Message> {
    if ms == [] then []
    else (if ms[0].role == SYSTEM then [] else [ms[0]]) + WithoutSystem(ms[1..])
  }

  predicate ToolMessagesCarryNoCalls(ms: seq<Message>) {
    forall i :: 0 <= i < |ms| ==> ms[i].role == TOOL ==> ms[i].toolCalls == []
  }

  lemma EssenceAgreesIff(m: Message)
    ensures OpenAIEssence(m) == Essence(m) <==> (m.role == TOOL ==> m.toolCalls == [])
  {
    assert |FilledAll(m.toolCalls)| == |m.toolCalls|;
  }

  lemma ConsInjective<T>(x: T, y: T, a: seq<T>, b: seq<T>)
    ensures [x] + a == [y] + b <==> x == y && a == b
  {
    if [x] + a == [y] + b {
      assert ([x] + a)[0] == ([y] + b)[0] && ([x] + a)[1..] == ([y] + b)[1..];
      assert ([x] + a)[1..] == a && ([y] + b)[1..] == b;
    }
  }

  lemma {:induction false} EssencesAgreeIff(ms: seq<Message>)
    ensures WithoutSystem(OpenAIEssences(ms)) == Essences(ms) <==> ToolMessagesCarryNoCalls(ms)
  {
    if ms != [] {
      EssencesAgreeIff(ms[1..]);
      ToolRuleUnfolds(ms);
      var a, b := WithoutSystem(OpenAIEssences(ms[1..])), Essences(ms[1..]);
      assert OpenAIEssences(ms)[1..] == OpenAIEssences(ms[1..]) && [] + a == a && [] + b == b;
      EssenceAgreesIff(ms[0]);
      ConsInjective(OpenAIEssence(ms[0]), Essence(ms[0]), a, b);
    }
  }

  lemma ToolRuleUnfolds(ms: seq<Message>)
    requires ms != []
    ensures ToolMessagesCarryNoCalls(ms) <==>
      (ms[0].role == TOOL ==> ms[0].toolCalls == []) && ToolMessagesCarryNoCalls(ms[1..])
  {
    assert forall i :: 0 < i < |ms| ==> ms[i] == ms[1..][i - 1];
  }

  lemma {:induction false} SystemTextSurvivesOpenAI(written: string, ms: seq<Message>)
    ensures SystemText(written, OpenAIEssences(ms)) == SystemText(written, ms)
    decreases |ms|
  {
    if ms != [] {
      assert OpenAIEssences(ms)[1..] == OpenAIEssences(ms[1..]);
      if ms[0].role != SYSTEM {
        SystemTextSurvivesOpenAI(written, ms[1..]);
      } else {
        SystemTextSurvivesOpenAI((if written == "" then "" else written + GAP) + ms[0].content, ms[1..]);
      }
    }
  }

  // Both formats carry the same system text; they carry the same conversation exactly
  // when no tool message has calls of its own.
  lemma FormatsAgreeIff(req: Request)
    ensures var ms := Effective(req);
            var openAI := OpenAIDecoded(OpenAIEncoded(ms));
            && SystemText("", openAI) == SystemText("", ms)
            && (WithoutSystem(openAI) == AnthropicDecoded(AnthropicEncoded(ms)) <==> ToolMessagesCarryNoCalls(ms))
  {
    var ms := Effective(req);
    OpenAIRoundTrip(ms);
    AnthropicRoundTrip(ms);
    EssencesAgreeIff(ms);
    SystemTextSurvivesOpenAI("", ms);
  }

  // ---- what a request asks is what is sent ----

  function SystemsOf(ms: seq<Message>): seq<Message> {
    if ms == [] then [] else (if ms[0].role == SYSTEM then [ms[0]] else []) + SystemsOf(ms[1..])
  }

  lemma {:induction false} FirstSystemReplaced(ms: seq<Message>, m: Message)
    requires m.role == SYSTEM && FirstSystem(ms) < |ms|
    ensures var i := FirstSystem(ms);
            && WithoutSystem(ms[i := m]) == WithoutSystem(ms) && SystemsOf(ms) != [] && ms[i] == SystemsOf(ms)[0]
            && SystemsOf(ms[i := m]) == [m] + SystemsOf(ms)[1..]
  {
    var i := FirstSystem(ms);
    if i == 0 {
      assert ms[0 := m][1..] == ms[1..];
      assert ([ms[0]] + SystemsOf(ms[1..]))[1..] == SystemsOf(ms[1..]);
    } else {
      FirstSystemReplaced(ms[1..], m);
      assert ms[i := m][1..] == ms[1..][i - 1 := m] && ms[i := m][0] == ms[0];
      assert [] + SystemsOf(ms[1..]) == SystemsOf(ms[1..]);
      assert [] + SystemsOf(ms[i := m][1..]) == SystemsOf(ms[i := m][1..]);
    }
  }

  lemma {:induction false} NoSystems(ms: seq<Message>)
    requires FirstSystem(ms) == |ms|
    ensures SystemsOf(ms) == []
  {
    if ms != [] { NoSystems(ms[1..]); }
  }

  lemma OneInFront(m: Message, ms: seq<Message>)
    ensures WithoutSystem([m] + ms) == (if m.role == SYSTEM then [] else [m]) + WithoutSystem(ms)
    ensures SystemsOf([m] + ms) == (if m.role == SYSTEM then [m] else []) + SystemsOf(ms)
  {
    assert ([m] + ms)[1..] == ms;
  }

  // What the caller asks: the conversation without system messages, or the bare prompt.
  function Asked(req: Request): seq<Message> {
    if req.messages != [] then WithoutSystem(req.messages)
    else if req.prompt == "" then [] else [Message("user", req.prompt, "", "", [])]
  }

  lemma ConversationIsKept(req: Request)
    ensures WithoutSystem(Effective(req)) == Asked(req)
  {
    var ms, si := req.messages, req.systemInstruction;
    if ms == [] {
      var prompt := if req.prompt == "" then [] else [Plain(USER, req.prompt)];
      assert [] + prompt == prompt;
      OneInFront(Plain(SYSTEM, si), prompt);
      OneInFront(Plain(USER, req.prompt), []);
      assert [Plain(USER, req.prompt)] + [] == [Plain(USER, req.prompt)];
    } else if si != "" {
      if FirstSystem(ms) < |ms| {
        FirstSystemReplaced(ms, Prefixed(ms[FirstSystem(ms)], si));
      } else {
        OneInFront(Plain(SYSTEM, si), ms);
        assert [] + WithoutSystem(ms) == WithoutSystem(ms);
      }
    }
  }

  // The caller's system messages, in order, the instruction joined to the first of them
  // or standing alone.
  lemma InstructionIsJoined(req: Request)
    ensures var mine, si := SystemsOf(req.messages), req.systemInstruction;
            SystemsOf(Effective(req)) ==
            if si == "" then mine
            else if mine == [] then [Message("system", si, "", "", [])]
            else [mine[0].(content := if mine[0].content == "" then si else si + "\n\n" + mine[0].content)] + mine[1..]
  {
    var ms, si := req.messages, req.systemInstruction;
    if ms == [] {
      var prompt := if req.prompt == "" then [] else [Plain(USER, req.prompt)];
      assert [] + prompt == prompt;
      OneInFront(Plain(SYSTEM, si), prompt);
      OneInFront(Plain(USER, req.prompt), []);
      assert [Plain(USER, req.prompt)] + [] == [Plain(USER, req.prompt)];
    } else if si != "" {
      if FirstSystem(ms) < |ms| {
        FirstSystemReplaced(ms, Prefixed(ms[FirstSystem(ms)], si));
      } else {
        OneInFront(Plain(SYSTEM, si), ms);
        NoSystems(ms);
      }
    }
  }

  // Nothing else moves: at most the first system message changes, or one goes in front.
  lemma MessagesKeepTheirPlaces(req: Request)
    requires req.messages != []
    ensures var ms, sent := req.messages, Effective(req);
            || (|sent| == |ms| + 1 && sent[1..] == ms && sent[0].role == "system")
            || (|sent| == |ms| && forall j :: 0 <= j < |ms| ==>
                  sent[j] == ms[j] || (ms[j].role == "system" && forall k :: 0 <= k < j ==> ms[k].role != "system"))
  {
    var ms, si := req.messages, req.systemInstruction;
    if si != "" && FirstSystem(ms) == |ms| { assert ([Plain(SYSTEM, si)] + ms)[1..] == ms; }
  }

  lemma {:induction false} EssencesIgnoreSystem(ms: seq<Message>)
    ensures Essences(WithoutSystem(ms)) == Essences(ms)
  {
    if ms != [] {
      EssencesIgnoreSystem(ms[1..]);
      var rest := WithoutSystem(ms[1..]);
      assert ([ms[0]] + rest)[1..] == rest && [] + rest == rest && [] + Essences(ms[1..]) == Essences(ms[1..]);
    }
  }

  lemma {:induction false} OpenAIEssencesOfRest(ms: seq<Message>)
    ensures WithoutSystem(OpenAIEssences(ms)) == OpenAIEssences(WithoutSystem(ms))
  {
    if ms != [] {
      OpenAIEssencesOfRest(ms[1..]);
      var rest, after := WithoutSystem(ms[1..]), OpenAIEssences(ms[1..]);
      assert ([ms[0]] + rest)[1..] == rest && [] + rest == rest;
      assert ([OpenAIEssence(ms[0])] + after)[1..] == after && [] + WithoutSystem(after) == WithoutSystem(after);
    }
  }

  // Both formats carry exactly what was asked, up to what each erases.
  lemma BothFormatsCarryTheRequest(req: Request)
    ensures AnthropicDecoded(AnthropicEncoded(Effective(req))) == Essences(Asked(req))
    ensures WithoutSystem(OpenAIDecoded(OpenAIEncoded(Effective(req)))) == OpenAIEssences(Asked(req))
  {
    ConversationIsKept(req);
    AnthropicRoundTrip(Effective(req));
    EssencesIgnoreSystem(Effective(req));
    OpenAIRoundTrip(Effective(req));
    OpenAIEssencesOfRest(Effective(req));
  }

  // ---- when nothing is erased ----

  // No field that means nothing for the role, and no call without arguments.
  predicate Bare(m: Message) {
    && m.toolName == "" && (m.role == TOOL ==> m.toolCalls == []) && (m.role != TOOL ==> m.toolCallId == "")
    && forall i :: 0 <= i < |m.toolCalls| ==> m.toolCalls[i].arguments != ""
  }

  lemma BareIsItsEssence(m: Message)
    requires Bare(m)
    ensures Essence(m) == m && OpenAIEssence(m) == m
  {
    assert FilledAll(m.toolCalls) == m.toolCalls;
  }

  // Then both round trips are exact.
  lemma {:induction false} BareConversationsComeBack(ms: seq<Message>)
    requires forall i :: 0 <= i < |ms| ==> Bare(ms[i])
    ensures AnthropicDecoded(AnthropicEncoded(ms)) == WithoutSystem(ms)
    ensures OpenAIDecoded(OpenAIEncoded(ms)) == ms
  {
    AnthropicRoundTrip(ms);
    OpenAIRoundTrip(ms);
    if ms != [] {
      AnthropicRoundTrip(ms[1..]);
      OpenAIRoundTrip(ms[1..]);
      BareConversationsComeBack(ms[1..]);
      BareIsItsEssence(ms[0]);
      assert [ms[0]] + ms[1..] == ms;
    }
  }

  // ---- what OpenAI sees of one message ----

  lemma {:induction false} OpenAIFieldsAre(ms: seq<Message>, i: nat)
    requires i < |ms|
    ensures |OpenAIEncoded(ms)| == |ms|
    ensures var m, item := ms[i], OpenAIEncoded(ms)[i];
            && item.role == m.role
            && item.content == (if m.content == "" && m.toolCalls != [] then None else Some(m.content))
            && item.toolCallId == (if m.role == "tool" then Some(m.toolCallId) else None)
            && (item.toolCalls.Some? <==> m.toolCalls != [])
  {
    if |ms| > 1 { OpenAIFieldsAre(ms[1..], if i > 0 then i - 1 else 0); }
  }

  // ---- what the Anthropic system text says ----

  function Texts(ms: seq<Message>): seq<string> {
    if ms == [] then [] else (if ms[0].role == SYSTEM then [ms[0].content] else []) + Texts(ms[1..])
  }

  // The texts with a blank line between them.
  function Spaced(texts: seq<string>): string {
    if texts == [] then "" else if |texts| == 1 then texts[0] else texts[0] + "\n\n" + Spaced(texts[1..])
  }

  // Empty texts at the start leave no blank line.
  function FromFirst(texts: seq<string>): seq<string> {
    if texts != [] && texts[0] == "" then FromFirst(texts[1..]) else texts
  }

  lemma {:induction false} SystemTextContinues(written: string, ms: seq<Message>)
    requires written != ""
    ensures SystemText(written, ms) == Spaced([written] + Texts(ms))
    decreases |ms|
  {
    if ms == [] {
      assert [written] + Texts(ms) == [written];
    } else if ms[0].role != SYSTEM {
      SystemTextContinues(written, ms[1..]);
      assert Texts(ms) == [] + Texts(ms[1..]) == Texts(ms[1..]);
    } else {
      SystemTextContinues(written + GAP + ms[0].content, ms[1..]);
      SpacedJoins(written, ms[0].content, Texts(ms[1..]));
      TwoInFront(written, ms[0].content, Texts(ms[1..]));
    }
  }

  lemma TwoInFront(a: string, b: string, rest: seq<string>)
    ensures [a] + ([b] + rest) == [a, b] + rest
  {
  }

  lemma SpacedJoins(a: string, b: string, rest: seq<string>)
    ensures Spaced([a + "\n\n" + b] + rest) == Spaced([a, b] + rest)
  {
    assert ([a, b] + rest)[1..] == [b] + rest && ([b] + rest)[1..] == rest;
    assert ([a + "\n\n" + b] + rest)[1..] == rest;
  }

  // Every system message's text, in order, a blank line between each two.
  lemma {:induction false} SystemTextIsSpaced(ms: seq<Message>)
    ensures SystemText("", ms) == Spaced(FromFirst(Texts(ms)))
    decreases |ms|
  {
    if ms != [] {
      var rest := Texts(ms[1..]);
      assert [] + rest == rest && ([ms[0].content] + rest)[1..] == rest && "" + ms[0].content == ms[0].content;
      if ms[0].role == SYSTEM && ms[0].content != "" {
        SystemTextContinues(ms[0].content, ms[1..]);
      } else {
        SystemTextIsSpaced(ms[1..]);
      }
    }
  }

  // ---- empty arguments ----

  lemma ArgumentsInBothFormats(m: Message, i: nat)
    requires m.role != TOOL && i < |m.toolCalls|
    ensures var call := m.toolCalls[i];
            var sent := ToolCall(call.id, call.name, if call.arguments == "" then "{}" else call.arguments);
            var anthropic, openAI := TurnDecoded(Turn(m.role, BlocksOf(m))), OpenAIOf(m).toolCalls;
            && |anthropic| == 1 && i < |anthropic[0].toolCalls| && anthropic[0].toolCalls[i] == sent
            && openAI.Some? && i < |openAI.value| && openAI.value[i] == sent
  {
    MessageTurnDecodes(m);
  }
}
