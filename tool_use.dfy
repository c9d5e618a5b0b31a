/**
 * The agent loop of terraform/src/lib/awscc_tool_use.py: how a tool's result
 * becomes a `tool_result` block (`_make_api_tool_result`,
 * `_maybe_prepend_system_tool_result`) and how `sampling_loop` grows the
 * conversation, one round per model reply.
 *
 * The model and the tools are parameters: `model` gives the reply to a
 * conversation (`None` when the API call raises, after which the loop sleeps
 * and asks again), `run` gives a tool's result for a name and an input. The
 * loop itself never ends on its own when the model keeps asking for tools;
 * `fuel` bounds the number of API calls it makes.
 */
module ToolUse {
  import opened Wrappers
  import opened Strings

  /**
   * `ToolResult`: each field is a text; the empty text stands for both `None`
   * and `""`, which the code treats alike (it only tests truthiness).
   */
  datatype ToolResult = ToolResult(output: string, error: string, base64Image: string, system: string)

  /** One entry of a `tool_result`'s content list. */
  datatype ContentPart = TextPart(text: string) | ImagePart(mediaType: string, data: string)

  /** The `content` of a `tool_result`: a bare string (on error) or a list of parts. */
  datatype Content = Plain(text: string) | Parts(parts: seq<ContentPart>)

  datatype ToolResultBlock = ToolResultBlock(content: Content, toolUseId: string, isError: bool)

  /** The tag that `_maybe_prepend_system_tool_result` puts before a text when `system` is set. */
  function SystemTag(system: string): string {
    "<system>" + system + "</system>\n"
  }

  /** `_maybe_prepend_system_tool_result`: the text, behind the system tag when there is one. */
  function MaybePrependSystem(result: ToolResult, text: string): (r: string)
    ensures EndsWith(r, text)
    ensures result.system == "" <==> |r| == |text|
    ensures result.system != "" ==> StartsWith(r, "<system>")
  {
    if result.system != "" then SystemTag(result.system) + text else text
  }

  /** Removes the system tag of `system` again (the inverse of `MaybePrependSystem`). */
  function Unprefix(system: string, text: string): string {
    if system == "" then text
    else if |SystemTag(system)| <= |text| then text[|SystemTag(system)|..]
    else ""
  }

  lemma UnprefixPrepend(result: ToolResult, text: string)
    ensures Unprefix(result.system, MaybePrependSystem(result, text)) == text
  {
    if result.system != "" {
      assert (SystemTag(result.system) + text)[|SystemTag(result.system)|..] == text;
    }
  }

  /**
   * `_make_api_tool_result`: an error gives an error block whose content is
   * the (tagged) error text alone; otherwise the content lists a text part
   * when there is output, then an image part when there is an image.
   */
  function MakeApiToolResult(result: ToolResult, toolUseId: string): (r: ToolResultBlock)
    ensures r.toolUseId == toolUseId
    ensures r.isError <==> result.error != ""
    ensures r.isError <==> r.content.Plain?
    ensures r.content.Parts? ==>
      |r.content.parts| == (if result.output != "" then 1 else 0) + (if result.base64Image != "" then 1 else 0)
    ensures r.content.Parts? && result.output != "" ==>
      r.content.parts[0] == TextPart(MaybePrependSystem(result, result.output))
    ensures r.content.Parts? && result.base64Image != "" ==>
      r.content.parts[|r.content.parts| - 1] == ImagePart("image/png", result.base64Image)
  {
    if result.error != "" then
      ToolResultBlock(Plain(MaybePrependSystem(result, result.error)), toolUseId, true)
    else
      var text := if result.output != "" then [TextPart(MaybePrependSystem(result, result.output))] else [];
      var image := if result.base64Image != "" then [ImagePart("image/png", result.base64Image)] else [];
      ToolResultBlock(Parts(text + image), toolUseId, false)
  }

  /** The text of the first text part, without its system tag; empty when there is none. */
  function OutputOf(parts: seq<ContentPart>, system: string): string {
    if parts == [] then ""
    else if parts[0].TextPart? then Unprefix(system, parts[0].text)
    else OutputOf(parts[1..], system)
  }

  /** The data of the first image part; empty when there is none. */
  function ImageOf(parts: seq<ContentPart>): string {
    if parts == [] then ""
    else if parts[0].ImagePart? then parts[0].data
    else ImageOf(parts[1..])
  }

  /** Reads a tool result back out of its block, given the `system` text it was tagged with. */
  function Recover(b: ToolResultBlock, system: string): ToolResult {
    match b.content
    case Plain(text) => ToolResult("", Unprefix(system, text), "", system)
    case Parts(parts) => ToolResult(OutputOf(parts, system), "", ImageOf(parts), system)
  }

  /**
   * Nothing of a result is lost in its block, except that an error hides the
   * output and the image: a result that has no error, or has nothing besides
   * it, is read back unchanged.
   */
  lemma RecoverMakeApiToolResult(result: ToolResult, toolUseId: string)
    requires result.error == "" || (result.output == "" && result.base64Image == "")
    ensures Recover(MakeApiToolResult(result, toolUseId), result.system) == result
  {
    if result.error != "" {
      UnprefixPrepend(result, result.error);
    } else {
      UnprefixPrepend(result, result.output);
      var parts := MakeApiToolResult(result, toolUseId).content.parts;
      var text := MaybePrependSystem(result, result.output);
      var image := ImagePart("image/png", result.base64Image);
      if result.output != "" && result.base64Image != "" {
        assert parts == [TextPart(text), image];
        assert parts[1..] == [image];
        assert ImageOf(parts) == ImageOf([image]) == result.base64Image;
      } else if result.output != "" {
        assert parts == [TextPart(text)];
        assert OutputOf(parts, result.system) == result.output;
        assert ImageOf(parts) == ImageOf([]) == "";
      } else if result.base64Image != "" {
        assert parts == [image];
        assert OutputOf(parts, result.system) == OutputOf([], result.system) == "";
        assert ImageOf(parts) == result.base64Image;
      } else {
        assert parts == [];
      }
    }
  }

  /** With an error set, the output and the image make no difference to the block. */
  lemma ErrorHidesOutput(result: ToolResult, toolUseId: string)
    requires result.error != ""
    ensures MakeApiToolResult(result, toolUseId) == MakeApiToolResult(result.(output := "", base64Image := ""), toolUseId)
  {
  }

  /** The blocks of a message: text, a request to run a tool, or a tool's result. */
  datatype Block =
    | TextBlock(text: string)
    | ToolUseBlock(id: string, name: string, input: string)
    | ResultBlock(result: ToolResultBlock)

  datatype Role = User | Assistant

  datatype Message = Message(role: Role, content: seq<Block>)

  /**
   * The tool results of one reply: one block per `tool_use` block, in block
   * order, each tagged with its block's id. Defined from the back, the way
   * the loop appends.
   */
  function ToolResults(content: seq<Block>, run: (string, string) -> ToolResult): (r: seq<Block>)
    ensures |r| <= |content|
    ensures forall i :: 0 <= i < |r| ==> r[i].ResultBlock?
  {
    if content == [] then []
    else
      var last := content[|content| - 1];
      ToolResults(content[..|content| - 1], run)
        + (if last.ToolUseBlock? then [ResultBlock(MakeApiToolResult(run(last.name, last.input), last.id))] else [])
  }

  /** The ids of the `tool_use` blocks, in order. */
  function ToolUseIds(content: seq<Block>): seq<string> {
    if content == [] then []
    else
      var last := content[|content| - 1];
      ToolUseIds(content[..|content| - 1]) + (if last.ToolUseBlock? then [last.id] else [])
  }

  /** The ids the results answer, in order. */
  function ResultIds(results: seq<Block>): seq<string>
    requires forall i :: 0 <= i < |results| ==> results[i].ResultBlock?
  {
    if results == [] then []
    else ResultIds(results[..|results| - 1]) + [results[|results| - 1].result.toolUseId]
  }

  /** Each `tool_use` block is answered once, in the order the blocks came. */
  lemma {:induction false} ToolResultsAnswerInOrder(content: seq<Block>, run: (string, string) -> ToolResult)
    ensures ResultIds(ToolResults(content, run)) == ToolUseIds(content)
  {
    if content != [] {
      var init := content[..|content| - 1];
      ToolResultsAnswerInOrder(init, run);
      var last := content[|content| - 1];
      var r := ToolResults(content, run);
      if last.ToolUseBlock? {
        assert r[..|r| - 1] == ToolResults(init, run);
      } else {
        assert r == ToolResults(init, run);
      }
    }
  }

  /** No block of the reply asks for a tool. */
  predicate NoToolUse(content: seq<Block>) {
    forall i :: 0 <= i < |content| ==> !content[i].ToolUseBlock?
  }

  /** A reply produces no tool results exactly when it holds no `tool_use` block. */
  lemma {:induction false} NoResultsIffNoToolUse(content: seq<Block>, run: (string, string) -> ToolResult)
    ensures ToolResults(content, run) == [] <==> NoToolUse(content)
  {
    if content != [] {
      var init := content[..|content| - 1];
      NoResultsIffNoToolUse(init, run);
      assert forall i :: 0 <= i < |init| ==> init[i] == content[i];
    }
  }

  /**
   * `sampling_loop` as a function of the conversation: a failed API call
   * leaves the conversation as it is and tries again; a reply is appended as
   * an assistant turn; a reply with tool uses is followed by one user turn
   * holding all its results, and the loop goes on; a reply without returns.
   * The Boolean says whether the loop returned (rather than running out of fuel).
   */
  function Loop(messages: seq<Message>, model: seq<Message> -> Option<seq<Block>>,
                run: (string, string) -> ToolResult, fuel: nat): (seq<Message>, bool)
    decreases fuel
  {
    if fuel == 0 then (messages, false)
    else
      match model(messages)
      case None => Loop(messages, model, run, fuel - 1)
      case Some(content) =>
        var results := ToolResults(content, run);
        var next := messages + [Message(Assistant, content)];
        if results == [] then (next, true)
        else Loop(next + [Message(User, results)], model, run, fuel - 1)
  }

  /**
   * Complete rounds: each is an assistant turn with at least one tool use,
   * followed by the user turn that holds exactly its results.
   */
  predicate Rounds(ms: seq<Message>, run: (string, string) -> ToolResult)
  {
    if ms == [] then true
    else
      && |ms| >= 2
      && ms[0].role == Assistant
      && ToolResults(ms[0].content, run) != []
      && ms[1] == Message(User, ToolResults(ms[0].content, run))
      && Rounds(ms[2..], run)
  }

  /** The last turn of a finished loop: an assistant reply without a tool use. */
  predicate FinalTurn(m: Message, run: (string, string) -> ToolResult) {
    m.role == Assistant && ToolResults(m.content, run) == []
  }

  lemma {:induction false} RoundsAppend(a: seq<Message>, b: seq<Message>, run: (string, string) -> ToolResult)
    requires Rounds(a, run) && Rounds(b, run)
    ensures Rounds(a + b, run)
    decreases |a|
  {
    if a == [] {
      assert a + b == b;
    } else {
      RoundsAppend(a[2..], b, run);
      assert (a + b)[0] == a[0] && (a + b)[1] == a[1];
      assert (a + b)[2..] == a[2..] + b;
      assert Rounds((a + b)[2..], run);
    }
  }

  /** What a loop adds: complete rounds, then, when it returned, a final assistant turn. */
  predicate Added(tail: seq<Message>, done: bool, run: (string, string) -> ToolResult) {
    if done then tail != [] && FinalTurn(tail[|tail| - 1], run) && Rounds(tail[..|tail| - 1], run)
    else Rounds(tail, run)
  }

  /** `after` is `before` followed by what a loop adds. */
  predicate Grown(before: seq<Message>, after: seq<Message>, done: bool, run: (string, string) -> ToolResult) {
    |before| <= |after| && after[..|before|] == before && Added(after[|before|..], done, run)
  }

  lemma DropLastOfConcat(a: seq<Message>, b: seq<Message>)
    requires b != []
    ensures (a + b)[|a + b| - 1] == b[|b| - 1]
    ensures (a + b)[..|a + b| - 1] == a + b[..|b| - 1]
  {
  }

  lemma AddedAfterRound(round: seq<Message>, tail: seq<Message>, done: bool, run: (string, string) -> ToolResult)
    requires Rounds(round, run) && Added(tail, done, run)
    ensures Added(round + tail, done, run)
  {
    if done {
      var init := tail[..|tail| - 1];
      DropLastOfConcat(round, tail);
      RoundsAppend(round, init, run);
    } else {
      RoundsAppend(round, tail, run);
    }
  }

  /** Growth by one complete round followed by growth is growth. */
  lemma GrownAfterRound(messages: seq<Message>, round: seq<Message>, after: seq<Message>, done: bool,
                        run: (string, string) -> ToolResult)
    requires Rounds(round, run) && Grown(messages + round, after, done, run)
    ensures Grown(messages, after, done, run)
  {
    var m, k := |messages|, |messages + round|;
    assert after[..k] == messages + round;
    assert after[..m] == messages by {
      assert after[..m] == after[..k][..m];
    }
    assert after[m..] == round + after[k..] by {
      assert after[m..k] == after[..k][m..];
      assert after[m..] == after[m..k] + after[k..];
    }
    AddedAfterRound(round, after[k..], done, run);
  }

  /**
   * The conversation only grows, and what is added is a run of complete
   * rounds, closed by a final assistant turn exactly when the loop returned.
   */
  lemma {:induction false} LoopAddsRounds(messages: seq<Message>, model: seq<Message> -> Option<seq<Block>>,
                                          run: (string, string) -> ToolResult, fuel: nat)
    ensures Grown(messages, Loop(messages, model, run, fuel).0, Loop(messages, model, run, fuel).1, run)
    decreases fuel
  {
    if fuel == 0 {
      assert messages[|messages|..] == [];
    } else {
      match model(messages)
      case None =>
        LoopAddsRounds(messages, model, run, fuel - 1);
      case Some(content) =>
        var results := ToolResults(content, run);
        var next := messages + [Message(Assistant, content)];
        if results == [] {
          assert next[|messages|..] == [Message(Assistant, content)];
        } else {
          var round := [Message(Assistant, content), Message(User, results)];
          assert Rounds(round, run) by {
            assert round[2..] == [];
          }
          assert next + [Message(User, results)] == messages + round;
          LoopAddsRounds(messages + round, model, run, fuel - 1);
          var r := Loop(messages + round, model, run, fuel - 1);
          GrownAfterRound(messages, round, r.0, r.1, run);
        }
    }
  }

  /** A loop that returned, returned on a reply without tool uses and with the history closed. */
  lemma LoopStopsOnlyWithoutToolUse(messages: seq<Message>, model: seq<Message> -> Option<seq<Block>>,
                                    run: (string, string) -> ToolResult, fuel: nat)
    requires Loop(messages, model, run, fuel).1
    ensures var ms := Loop(messages, model, run, fuel).0;
      && |ms| > 0 && ms[|ms| - 1].role == Assistant
      && NoToolUse(ms[|ms| - 1].content)
  {
    LoopAddsRounds(messages, model, run, fuel);
    var ms := Loop(messages, model, run, fuel).0;
    var tail := ms[|messages|..];
    assert ms[|ms| - 1] == tail[|tail| - 1];
    NoResultsIffNoToolUse(ms[|ms| - 1].content, run);
  }

  /**
   * `sampling_loop`: appends to the conversation round by round. Each round
   * collects the tool results of the reply in a list, in block order.
   */
  method SamplingLoop(messages0: seq<Message>, model: seq<Message> -> Option<seq<Block>>,
                      run: (string, string) -> ToolResult, fuel: nat)
    returns (messages: seq<Message>, finished: bool)
    ensures (messages, finished) == Loop(messages0, model, run, fuel)
  {
    messages := messages0;
    var f: nat := fuel;
    while f > 0
      invariant f <= fuel
      invariant Loop(messages, model, run, f) == Loop(messages0, model, run, fuel)
      decreases f
    {
      var reply := model(messages);
      if reply.None? {
        f := f - 1;
        continue;
      }
      var content := reply.value;
      messages := messages + [Message(Assistant, content)];
      var results := CollectToolResults(content, run);
      if results == [] {
        return messages, true;
      }
      messages := messages + [Message(User, results)];
      f := f - 1;
    }
    return messages, false;
  }

  /** The inner `for` over the reply's blocks, running each tool use in turn. */
  method CollectToolResults(content: seq<Block>, run: (string, string) -> ToolResult) returns (results: seq<Block>)
    ensures results == ToolResults(content, run)
  {
    results := [];
    for i := 0 to |content|
      invariant results == ToolResults(content[..i], run)
    {
      var block := content[i];
      assert content[..i + 1][..i] == content[..i];
      if block.ToolUseBlock? {
        results := results + [ResultBlock(MakeApiToolResult(run(block.name, block.input), block.id))];
      }
    }
    assert content[..|content|] == content;
  }

  /** `run_prompt`'s conversation: the user's prompt as a single text turn. */
  function InitialMessages(prompt: string): (r: seq<Message>)
    ensures |r| == 1 && r[0].role == User
  {
    [Message(User, [TextBlock(prompt)])]
  }

  /**
   * After the user's prompt, the conversation alternates: the first added
   * turn is the assistant's.
   */
  lemma FirstReplyFollowsPrompt(prompt: string, model: seq<Message> -> Option<seq<Block>>,
                                run: (string, string) -> ToolResult, fuel: nat)
    ensures var ms := Loop(InitialMessages(prompt), model, run, fuel).0;
      |ms| >= 1 && ms[0] == Message(User, [TextBlock(prompt)]) && (|ms| > 1 ==> ms[1].role == Assistant)
  {
    var start := InitialMessages(prompt);
    LoopAddsRounds(start, model, run, fuel);
    var (ms, done) := Loop(start, model, run, fuel);
    assert ms[..1][0] == ms[0];
    if |ms| > 1 {
      var tail := ms[1..];
      assert tail[0] == ms[1];
      if done && |tail| > 1 {
        assert tail[..|tail| - 1][0] == tail[0];
      }
    }
  }
}
