/**
 * The conversation's agent loop (RunOneRound in pkg/agent/conversation.go):
 * send the pending content, read the shimmed reply, show its text in one
 * text block, then ask the user about each function call in turn, invoke
 * the approved ones and collect an observation per call for the next send;
 * stop when a reply asks for nothing, and give up after 20 sends.
 *
 * The LLM, the JSON decoder, the tool lookup, the user's answers and the
 * tools themselves are oracles in `Env`: the n-th send, the n-th wait and
 * the n-th invocation read the n-th entry of their script. The document is
 * the log of blocks the loop adds to it.
 */
module Agent {
  import opened Wrappers
  import opened GoStrings
  import opened Shim

  const MaxIterations: nat := 20
  /** The options of the confirmation block. */
  const ConfirmOptions: seq<string> := ["1", "2"]
  const SkippedText: string := "Operation was skipped."
  const InvalidChoiceText: string := "Invalid choice received. Cancelling operation."
  const MaxIterationsText: string := "Sorry, couldn't complete the task after 20 iterations.\n"

  /** The kinds of block the loop adds to the document, with what they show. */
  datatype BlockKind =
    | AgentTextBlock(text: string)
    | FunctionCallRequestBlock(call: string)
    | InputOptionBlock(options: seq<string>)
    | ErrorBlock(text: string)

  /** What is sent to the model: the user's query, or the observation of one call. */
  datatype Content =
    | Query(text: string)
    | Ran(name: string, output: string)
    | NotApproved(name: string)

  /** What SendStreaming gives back: an error, or the upstream stream. */
  datatype Reply = SendError(message: string) | Streamed(items: seq<StreamItem>)

  /** What waiting on the options block gives back. */
  datatype Choice = Chosen(choice: string) | EndOfInput | ReadError(message: string)

  datatype Env = Env(
    llm: nat -> Reply,
    decode: string -> Option<ReActResponse>,
    buildsTool: FunctionCall -> bool,
    wait: nat -> Choice,
    invoke: nat -> Result<string, string>)

  datatype RoundError =
    | Sending(message: string)
    | ReadingStream(cause: ShimError)
    | BuildingToolCall(name: string)
    | ReadingInput(message: string)
    | InvalidChoice(choice: string)
    | ExecutingAction(message: string)
    | MaxIterationsReached

  /** RunOneRound's error result: nil, or an error. */
  datatype Ending = Done | Error(error: RoundError)

  /** Everything the loop did: blocks added, contents sent, waits made, tools invoked. */
  datatype Trace = Trace(kinds: seq<BlockKind>, sent: seq<seq<Content>>, waits: nat, invoked: seq<string>)

  /** After a call or a round: go on with the new trace and pending content, or return. */
  datatype Step = Continue(trace: Trace, content: seq<Content>) | Stop(trace: Trace, ending: Ending)

  // ---------------------------------------------------------------------
  // The parts of a reply
  // ---------------------------------------------------------------------

  /** The texts the loop appends to its text block, in order. */
  function TextsOf(parts: seq<ShimPart>): string
  {
    if parts == [] then ""
    else
      var (text, ok) := AsText(parts[|parts| - 1]);
      TextsOf(parts[..|parts| - 1]) + (if ok then text else "")
  }

  /** The function calls the loop collects, in order. */
  function CallsOf(parts: seq<ShimPart>): seq<FunctionCall>
  {
    if parts == [] then []
    else
      var (calls, ok) := AsFunctionCalls(parts[|parts| - 1]);
      CallsOf(parts[..|parts| - 1]) + (if ok && |calls| > 0 then calls else [])
  }

  /** The call an action becomes. */
  function CallFor(a: Action): FunctionCall
  {
    FunctionCall(a.name, map["reason" := a.reason, "command" := a.command, "modifies_resource" := a.modifiesResource])
  }

  /**
   * Reading a response's parts back gives the response: its thought and
   * answer as the text, and its action, if any, as the only call.
   */
  lemma {:induction false} PartsRoundTrip(c: ReActResponse)
    ensures TextsOf(Parts(c)) == c.thought + c.answer
    ensures CallsOf(Parts(c)) == (match c.action case None => [] case Some(a) => [CallFor(a)])
  {
    var t := if c.thought != "" then [ShimPart(c.thought, None)] else [];
    var ta := t + (if c.answer != "" then [ShimPart(c.answer, None)] else []);
    assert TextsOf(t) == c.thought && CallsOf(t) == [] by {
      if t != [] { assert t[..0] == []; }
    }
    assert TextsOf(ta) == c.thought + c.answer && CallsOf(ta) == [] by {
      if c.answer != "" { assert ta[..|ta| - 1] == t; }
    }
    var parts := Parts(c);
    if c.action.Some? {
      assert parts[..|parts| - 1] == ta;
      assert TextsOf(parts) == TextsOf(ta) + "";
    } else {
      assert parts == ta;
    }
  }

  /**
   * The inner loop over a reply's parts: the first text creates the text
   * block, later texts are appended to it; calls are collected in order.
   */
  method ProcessParts(parts: seq<ShimPart>, blocks: seq<BlockKind>) returns (newBlocks: seq<BlockKind>, calls: seq<FunctionCall>)
    ensures newBlocks == if TextsOf(parts) == "" then blocks else blocks + [AgentTextBlock(TextsOf(parts))]
    ensures calls == CallsOf(parts)
  {
    newBlocks, calls := blocks, [];
    var textBlock := -1;
    for j := 0 to |parts|
      invariant calls == CallsOf(parts[..j])
      invariant textBlock == -1 <==> TextsOf(parts[..j]) == ""
      invariant textBlock == -1 ==> newBlocks == blocks
      invariant textBlock != -1 ==> textBlock == |blocks| && newBlocks == blocks + [AgentTextBlock(TextsOf(parts[..j]))]
    {
      assert parts[..j + 1][..j] == parts[..j];
      var (text, ok) := AsText(parts[j]);
      assert TextsOf(parts[..j + 1]) == TextsOf(parts[..j]) + (if ok then text else "");
      if ok {
        if textBlock == -1 {
          newBlocks := newBlocks + [AgentTextBlock("")];
          textBlock := |newBlocks| - 1;
        }
        assert newBlocks[textBlock].text == TextsOf(parts[..j]);
        newBlocks := newBlocks[textBlock := AgentTextBlock(newBlocks[textBlock].text + text)];
        assert newBlocks == blocks + [AgentTextBlock(TextsOf(parts[..j + 1]))];
      } else {
        assert TextsOf(parts[..j + 1]) == TextsOf(parts[..j]);
      }
      var (cs, isCall) := AsFunctionCalls(parts[j]);
      if isCall && |cs| > 0 {
        calls := calls + cs;
      }
    }
    assert parts[..|parts|] == parts;
  }

  // ---------------------------------------------------------------------
  // The loop, as functions
  // ---------------------------------------------------------------------

  /** One function call: build the tool, ask, then invoke, skip or give up. */
  function HandleCall(env: Env, call: FunctionCall, t: Trace, content: seq<Content>): Step
  {
    if !env.buildsTool(call) then Stop(t, Error(BuildingToolCall(call.name)))
    else
      var asked := t.(kinds := t.kinds + [FunctionCallRequestBlock(call.name), InputOptionBlock(ConfirmOptions)],
                      waits := t.waits + 1);
      match env.wait(t.waits)
      case EndOfInput => Stop(asked, Done)
      case ReadError(m) => Stop(asked, Error(ReadingInput(m)))
      case Chosen(choice) =>
        if choice == "1" then
          var ran := asked.(invoked := asked.invoked + [call.name]);
          match env.invoke(|t.invoked|)
          case Failure(m) => Stop(ran, Error(ExecutingAction(m)))
          case Success(output) => Continue(ran, content + [Ran(call.name, output)])
        else if choice == "2" then
          Continue(asked.(kinds := asked.kinds + [AgentTextBlock(SkippedText)]), content + [NotApproved(call.name)])
        else
          Stop(asked.(kinds := asked.kinds + [ErrorBlock(InvalidChoiceText)]), Error(InvalidChoice(choice)))
  }

  /** The calls of one reply, in the order they were emitted, until one of them returns. */
  function HandleCalls(env: Env, calls: seq<FunctionCall>, t: Trace, content: seq<Content>): Step
    decreases |calls|
  {
    if calls == [] then Continue(t, content)
    else match HandleCall(env, calls[0], t, content)
      case Stop(t', e) => Stop(t', e)
      case Continue(t', c') => HandleCalls(env, calls[1..], t', c')
  }

  /** One iteration: send, read the shimmed reply, show its text, handle its calls. */
  function Round(env: Env, content: seq<Content>, t: Trace): Step
  {
    var sent := t.(sent := t.sent + [content]);
    match env.llm(|t.sent|)
    case SendError(m) => Stop(sent, Error(Sending(m)))
    case Streamed(items) =>
      match ShimResult(items, env.decode).0
      case Failed(e) => Stop(sent, Error(ReadingStream(e)))
      case NoResponse => Stop(sent, Done)
      case Yielded(resp) => Respond(env, Parts(resp), sent)
  }

  /** The rest of a round once the reply's parts are known: show the text, handle the calls. */
  function Respond(env: Env, parts: seq<ShimPart>, t: Trace): Step
  {
    var shown := if TextsOf(parts) == "" then t else t.(kinds := t.kinds + [AgentTextBlock(TextsOf(parts))]);
    var calls := CallsOf(parts);
    match HandleCalls(env, calls, shown, [])
    case Stop(t', e) => Stop(t', e)
    case Continue(t', c') => if calls == [] then Stop(t', Done) else Continue(t', c')
  }

  /** The iterations from `iteration` on, with `content` pending, each one run by `round`. */
  function Rounds(round: (seq<Content>, Trace) -> Step, iteration: nat, content: seq<Content>, t: Trace): (Trace, Ending)
    decreases MaxIterations - iteration
  {
    if iteration >= MaxIterations then
      (t.(kinds := t.kinds + [ErrorBlock(MaxIterationsText)]), Error(MaxIterationsReached))
    else match round(content, t)
      case Stop(t', e) => (t', e)
      case Continue(t', c') => Rounds(round, iteration + 1, c', t')
  }

  /** The loop's body for a given environment. */
  function RoundIn(env: Env): (seq<Content>, Trace) -> Step
  {
    (content, t) => Round(env, content, t)
  }

  /** What RunOneRound does for a query, on an empty log. */
  function Run(env: Env, query: string): (Trace, Ending)
  {
    Rounds(RoundIn(env), 0, [Query(query)], Trace([], [], 0, []))
  }

  // ---------------------------------------------------------------------
  // The loop, as the source writes it
  // ---------------------------------------------------------------------

  /** The loop over one reply's calls. */
  method HandleCallsInOrder(env: Env, calls: seq<FunctionCall>, t0: Trace) returns (step: Step)
    ensures step == HandleCalls(env, calls, t0, [])
  {
    var t, content := t0, [];
    var j := 0;
    while j < |calls|
      invariant 0 <= j <= |calls|
      invariant HandleCalls(env, calls, t0, []) == HandleCalls(env, calls[j..], t, content)
    {
      var call := calls[j];
      assert calls[j..][0] == call && calls[j..][1..] == calls[j + 1..];
      if !env.buildsTool(call) {
        return Stop(t, Error(BuildingToolCall(call.name)));
      }
      var before := t;
      t := t.(kinds := t.kinds + [FunctionCallRequestBlock(call.name), InputOptionBlock(ConfirmOptions)]);
      var selected := env.wait(t.waits);
      t := t.(waits := t.waits + 1);
      match selected {
        case EndOfInput =>
          return Stop(t, Done);
        case ReadError(m) =>
          return Stop(t, Error(ReadingInput(m)));
        case Chosen(choice) =>
          if choice == "1" {
            var output := env.invoke(|t.invoked|);
            t := t.(invoked := t.invoked + [call.name]);
            if output.Failure? {
              return Stop(t, Error(ExecutingAction(output.error)));
            }
            content := content + [Ran(call.name, output.value)];
          } else if choice == "2" {
            t := t.(kinds := t.kinds + [AgentTextBlock(SkippedText)]);
            content := content + [NotApproved(call.name)];
          } else {
            t := t.(kinds := t.kinds + [ErrorBlock(InvalidChoiceText)]);
            return Stop(t, Error(InvalidChoice(choice)));
          }
      }
      j := j + 1;
    }
    step := Continue(t, content);
  }

  /** One iteration of RunOneRound's loop: the send, the reply's parts, the calls. */
  method RunRound(env: Env, content: seq<Content>, t0: Trace) returns (step: Step)
    ensures step == Round(env, content, t0)
  {
    var reply := env.llm(|t0.sent|);
    var trace := t0.(sent := t0.sent + [content]);
    match reply {
      case SendError(m) =>
        return Stop(trace, Error(Sending(m)));
      case Streamed(items) =>
        var out, _ := CandidateToShimCandidate(items, env.decode);
        match out {
          case Failed(e) =>
            return Stop(trace, Error(ReadingStream(e)));
          case NoResponse =>
            return Stop(trace, Done);
          case Yielded(resp) =>
            var blocks, calls := ProcessParts(Parts(resp), trace.kinds);
            trace := trace.(kinds := blocks);
            step := HandleCallsInOrder(env, calls, trace);
            if step.Continue? && |calls| == 0 {
              step := Stop(step.trace, Done);
            }
        }
    }
  }

  /** RunOneRound: at most MaxIterations sends, each followed by the handling of the reply. */
  method RunOneRound(env: Env, query: string) returns (trace: Trace, ending: Ending)
    ensures (trace, ending) == Run(env, query)
  {
    var content := [Query(query)];
    trace := Trace([], [], 0, []);
    var iteration := 0;
    while iteration < MaxIterations
      invariant 0 <= iteration <= MaxIterations
      invariant Run(env, query) == Rounds(RoundIn(env), iteration, content, trace)
    {
      var step := RunRound(env, content, trace);
      match step {
        case Stop(t, e) =>
          return t, e;
        case Continue(t, c) =>
          trace, content := t, c;
      }
      iteration := iteration + 1;
    }
    trace := trace.(kinds := trace.kinds + [ErrorBlock(MaxIterationsText)]);
    ending := Error(MaxIterationsReached);
  }

  // ---------------------------------------------------------------------
  // The order of the function definitions (Init)
  // ---------------------------------------------------------------------

  /** A tool's function definition as handed to the chat; only its name matters to the order. */
  datatype FunctionDefinition = FunctionDefinition(name: string, description: string)

  /** No definition's name is below that of one before it. */
  predicate SortedByName(defs: seq<FunctionDefinition>)
  {
    forall i, j :: 0 <= i < j < |defs| ==> !Less(defs[j].name, defs[i].name)
  }

  /** Put `d` in front of the first definition whose name is not below its own. */
  function InsertByName(d: FunctionDefinition, defs: seq<FunctionDefinition>): (r: seq<FunctionDefinition>)
    ensures multiset(r) == multiset(defs) + multiset{d}
  {
    if defs == [] || !Less(defs[0].name, d.name) then [d] + defs
    else
      assert defs == [defs[0]] + defs[1..];
      [defs[0]] + InsertByName(d, defs[1..])
  }

  /**
   * The order Init gives the definitions before handing them to the chat
   * (sort.Slice by name): sorted by name, and a permutation of its input.
   */
  function SortByName(defs: seq<FunctionDefinition>): (r: seq<FunctionDefinition>)
    ensures multiset(r) == multiset(defs)
  {
    if defs == [] then []
    else
      assert defs == [defs[0]] + defs[1..];
      InsertByName(defs[0], SortByName(defs[1..]))
  }

  /** Inserting into a sorted sequence keeps it sorted. */
  lemma {:induction false} InsertKeepsSorted(d: FunctionDefinition, defs: seq<FunctionDefinition>)
    requires SortedByName(defs)
    ensures SortedByName(InsertByName(d, defs))
  {
    var r := InsertByName(d, defs);
    if defs == [] || !Less(defs[0].name, d.name) {
      forall j | 0 < j < |r| ensures !Less(r[j].name, d.name) {
        var e := defs[j - 1];
        assert r[j] == e;
        if Less(e.name, d.name) && e.name != defs[0].name {
          LessTotal(e.name, defs[0].name);
          LessTransitive(defs[0].name, e.name, d.name);
        }
      }
    } else {
      var rest := InsertByName(d, defs[1..]);
      InsertKeepsSorted(d, defs[1..]);
      forall j | 0 <= j < |rest| ensures !Less(rest[j].name, defs[0].name) {
        assert rest[j] in multiset(rest);
        if rest[j] == d {
          LessAsymmetric(defs[0].name, d.name);
        } else {
          assert rest[j] in multiset(defs[1..]);
          var k :| 0 <= k < |defs[1..]| && defs[1..][k] == rest[j];
          assert defs[k + 1] == rest[j];
        }
      }
      assert r == [defs[0]] + rest;
    }
  }

  lemma {:induction false} SortByNameSorts(defs: seq<FunctionDefinition>)
    ensures SortedByName(SortByName(defs))
  {
    if defs != [] {
      SortByNameSorts(defs[1..]);
      InsertKeepsSorted(defs[0], SortByName(defs[1..]));
    }
  }
}
