/**
 * What RunOneRound promises: it sends at most MaxIterations times, the
 * query first and then only observations; it handles a reply's calls in the
 * order they were emitted, one confirmation each; it invokes a tool exactly
 * once per "1" the user chose; a reply without an action ends it; and the
 * "max iterations" error comes only after every send had calls, with the
 * error block last.
 */
module AgentProperties {
  import opened Wrappers
  import opened Shim
  import opened Agent

  /** Every log of `t` is a prefix of the same log in `t'`. */
  predicate Extends(t: Trace, t': Trace)
  {
    t.kinds <= t'.kinds && t.sent <= t'.sent && t.waits <= t'.waits && t.invoked <= t'.invoked
  }

  /** Content sent after the first send: one observation per call, never a query. */
  predicate Observations(c: seq<Content>)
  {
    c != [] && forall k :: 0 <= k < |c| ==> !c[k].Query?
  }

  /** From index `from` on, `c` holds one observation per call, naming the calls in order. */
  predicate ObservesInOrder(c: seq<Content>, from: nat, calls: seq<FunctionCall>)
  {
    forall i :: 0 <= i < |calls| ==> from + i < |c| && !c[from + i].Query? && c[from + i].name == calls[i].name
  }

  /**
   * `c` is exactly the observations of `calls`: one per call, in order, and
   * nothing else; there was at least one call.
   */
  predicate Answers(calls: seq<FunctionCall>, c: seq<Content>)
  {
    calls != [] && |c| == |calls| && ObservesInOrder(c, 0, calls)
  }

  /** The calls of the reply to the n-th send, if that reply streamed and parsed; none otherwise. */
  function ReplyCalls(env: Env, n: nat): seq<FunctionCall>
  {
    match env.llm(n)
    case SendError(_) => []
    case Streamed(items) =>
      match ShimResult(items, env.decode).0
      case Yielded(resp) => CallsOf(Parts(resp))
      case NoResponse => []
      case Failed(_) => []
  }

  /** How many of the waits numbered lo .. hi-1 the user answered with "1". */
  function Approvals(env: Env, lo: nat, hi: nat): nat
    decreases hi - lo
  {
    if lo >= hi then 0 else (if env.wait(lo) == Chosen("1") then 1 else 0) + Approvals(env, lo + 1, hi)
  }

  lemma {:induction false} ApprovalsSplit(env: Env, lo: nat, mid: nat, hi: nat)
    requires lo <= mid <= hi
    ensures Approvals(env, lo, hi) == Approvals(env, lo, mid) + Approvals(env, mid, hi)
    decreases mid - lo
  {
    if lo < mid {
      ApprovalsSplit(env, lo + 1, mid, hi);
    }
  }

  // ---------------------------------------------------------------------
  // One call
  // ---------------------------------------------------------------------

  /**
   * One call only adds to the logs; it waits at most once, invokes a tool
   * exactly when that wait said "1", and when it goes on it has added
   * exactly one observation naming the call. A tool that cannot be built
   * stops the loop before anything is shown; a failed read stops it with
   * the read error; on "1" the observation is the output of that very
   * invocation, and a failed invocation stops the loop with its error.
   */
  lemma HandleCallSpec(env: Env, call: FunctionCall, t: Trace, content: seq<Content>)
    ensures var s := HandleCall(env, call, t, content);
      && Extends(t, s.trace) && s.trace.sent == t.sent
      && s.trace.waits <= t.waits + 1
      && |s.trace.invoked| == |t.invoked| + Approvals(env, t.waits, s.trace.waits)
      && (s.Continue? ==> && s.trace.waits == t.waits + 1
                          && s.content == content + [s.content[|content|]]
                          && !s.content[|content|].Query? && s.content[|content|].name == call.name)
      && (s.Stop? ==> s.ending != Error(MaxIterationsReached))
      && (!env.buildsTool(call) ==> s == Stop(t, Error(BuildingToolCall(call.name))))
      && (env.buildsTool(call) && env.wait(t.waits).ReadError? ==>
            s.Stop? && s.ending == Error(ReadingInput(env.wait(t.waits).message)))
      && (env.buildsTool(call) && env.wait(t.waits) == Chosen("1") ==>
            && s.trace.invoked == t.invoked + [call.name]
            && (env.invoke(|t.invoked|).Success? ==>
                  s.Continue? && s.content == content + [Ran(call.name, env.invoke(|t.invoked|).value)])
            && (env.invoke(|t.invoked|).Failure? ==>
                  s.Stop? && s.ending == Error(ExecutingAction(env.invoke(|t.invoked|).error))))
  {
    var s := HandleCall(env, call, t, content);
    if env.buildsTool(call) {
      assert Approvals(env, t.waits + 1, t.waits + 1) == 0;
    }
  }

  /**
   * Once the tool call is built, the request block and the options block
   * offering "1" and "2" are shown first; "2" skips the call with a skipped
   * block and a refusal observation; end of input ends the loop without
   * error; a failed read returns the read error; "1" shows nothing more and,
   * when the tool runs, records its output; any other choice shows the
   * error block and returns an error.
   */
  lemma ConfirmationOutcomes(env: Env, call: FunctionCall, t: Trace, content: seq<Content>)
    requires env.buildsTool(call)
    ensures var s := HandleCall(env, call, t, content);
      && |t.kinds| + 2 <= |s.trace.kinds|
      && s.trace.kinds[|t.kinds|] == FunctionCallRequestBlock(call.name)
      && s.trace.kinds[|t.kinds| + 1] == InputOptionBlock(["1", "2"])
      && (env.wait(t.waits) == Chosen("2") ==>
            && s.Continue? && s.content == content + [NotApproved(call.name)] && s.trace.invoked == t.invoked
            && s.trace.kinds[|s.trace.kinds| - 1] == AgentTextBlock(SkippedText))
      && (env.wait(t.waits) == EndOfInput <==> s.Stop? && s.ending == Done)
      && (env.wait(t.waits).ReadError? ==> s.Stop? && s.ending == Error(ReadingInput(env.wait(t.waits).message)))
      && (env.wait(t.waits) == Chosen("1") ==>
            && s.trace.kinds == t.kinds + [FunctionCallRequestBlock(call.name), InputOptionBlock(["1", "2"])]
            && (env.invoke(|t.invoked|).Success? ==>
                  s.Continue? && s.content == content + [Ran(call.name, env.invoke(|t.invoked|).value)]))
      && (env.wait(t.waits).Chosen? && env.wait(t.waits).choice != "1" && env.wait(t.waits).choice != "2" ==>
            && s.Stop? && s.ending == Error(InvalidChoice(env.wait(t.waits).choice))
            && s.trace.kinds[|s.trace.kinds| - 1] == ErrorBlock(InvalidChoiceText))
  {
  }

  /**
   * The calls of a reply are answered in the order they were emitted: if
   * none of them returns, each left one observation, in order, and each
   * waited for exactly one confirmation.
   */
  lemma {:induction false} CallsAnsweredInOrder(env: Env, calls: seq<FunctionCall>, t: Trace, content: seq<Content>)
    ensures var s := HandleCalls(env, calls, t, content);
      && Extends(t, s.trace) && s.trace.sent == t.sent
      && |s.trace.invoked| == |t.invoked| + Approvals(env, t.waits, s.trace.waits)
      && (s.Stop? ==> s.ending != Error(MaxIterationsReached))
      && (s.Continue? ==>
            && s.trace.waits == t.waits + |calls|
            && |s.content| == |content| + |calls| && content <= s.content
            && ObservesInOrder(s.content, |content|, calls))
    decreases |calls|
  {
    if calls == [] {
      assert Approvals(env, t.waits, t.waits) == 0;
    } else {
      HandleCallSpec(env, calls[0], t, content);
      var first := HandleCall(env, calls[0], t, content);
      if first.Continue? {
        var t1, c1 := first.trace, first.content;
        CallsAnsweredInOrder(env, calls[1..], t1, c1);
        var s := HandleCalls(env, calls[1..], t1, c1);
        assert HandleCalls(env, calls, t, content) == s;
        ApprovalsSplit(env, t.waits, t1.waits, s.trace.waits);
        if s.Continue? {
          assert s.content[|content|] == c1[|content|];
          ObservesStep(s.content, |content|, calls);
          assert |s.content| == |content| + |calls|;
          assert content <= s.content;
        }
      }
    }
  }

  /** An observation of the first call followed by observations of the rest, in order. */
  lemma ObservesStep(c: seq<Content>, from: nat, calls: seq<FunctionCall>)
    requires calls != [] && from < |c| && !c[from].Query? && c[from].name == calls[0].name
    requires ObservesInOrder(c, from + 1, calls[1..])
    ensures ObservesInOrder(c, from, calls)
  {
    forall i | 0 <= i < |calls|
      ensures from + i < |c| && !c[from + i].Query? && c[from + i].name == calls[i].name
    {
      if i > 0 {
        assert calls[1..][i - 1] == calls[i];
        assert from + 1 + (i - 1) == from + i;
      }
    }
  }

  // ---------------------------------------------------------------------
  // One round
  // ---------------------------------------------------------------------

  /**
   * Handling a reply's parts only adds blocks, waits and invocations; it
   * goes on to another round only with observations to send, exactly one
   * per call of this reply and in call order (the pending content starts
   * afresh), and never with the "max iterations" error.
   */
  lemma RespondSpec(env: Env, parts: seq<ShimPart>, t: Trace)
    ensures var s := Respond(env, parts, t);
      && Extends(t, s.trace) && s.trace.sent == t.sent
      && |s.trace.invoked| == |t.invoked| + Approvals(env, t.waits, s.trace.waits)
      && (s.Continue? ==> Observations(s.content) && Answers(CallsOf(parts), s.content))
      && (s.Stop? ==> s.ending != Error(MaxIterationsReached))
  {
    var shown := if TextsOf(parts) == "" then t else t.(kinds := t.kinds + [AgentTextBlock(TextsOf(parts))]);
    var calls := CallsOf(parts);
    var none: seq<Content> := [];
    CallsAnsweredInOrder(env, calls, shown, none);
    var s := HandleCalls(env, calls, shown, none);
    if s.Continue? && calls != [] {
      forall k | 0 <= k < |s.content| ensures !s.content[k].Query? {
        assert calls[k] == calls[k];
        assert s.content[|none| + k] == s.content[k];
      }
    }
  }

  /**
   * A round sends the pending content once; it goes on to another round
   * only with the observations of this send's reply, one per call in order,
   * and never with the "max iterations" error.
   */
  lemma RoundSpec(env: Env, content: seq<Content>, t: Trace)
    ensures var s := Round(env, content, t);
      && Extends(t, s.trace) && s.trace.sent == t.sent + [content]
      && |s.trace.invoked| == |t.invoked| + Approvals(env, t.waits, s.trace.waits)
      && (s.Continue? ==> Observations(s.content) && Answers(ReplyCalls(env, |t.sent|), s.content))
      && (s.Stop? ==> s.ending != Error(MaxIterationsReached))
  {
    var sent := t.(sent := t.sent + [content]);
    assert Approvals(env, t.waits, t.waits) == 0;
    if env.llm(|t.sent|).Streamed? {
      var out := ShimResult(env.llm(|t.sent|).items, env.decode).0;
      if out.Yielded? {
        RespondSpec(env, Parts(out.response), sent);
      }
    }
  }

  /** A reply without an action, or no reply at all, ends RunOneRound without error. */
  lemma RoundWithoutActionEnds(env: Env, content: seq<Content>, t: Trace)
    requires env.llm(|t.sent|).Streamed?
    requires var out := ShimResult(env.llm(|t.sent|).items, env.decode).0;
      out.NoResponse? || (out.Yielded? && out.response.action.None?)
    ensures Round(env, content, t).Stop? && Round(env, content, t).ending == Done
  {
    var out := ShimResult(env.llm(|t.sent|).items, env.decode).0;
    if out.Yielded? {
      PartsRoundTrip(out.response);
    }
  }

  // ---------------------------------------------------------------------
  // The whole loop
  // ---------------------------------------------------------------------

  /**
   * What every round promises (RoundSpec), with `replies(n)` the calls of
   * the reply to the n-th send: the loop needs only this of its body.
   */
  predicate KeepsPromises(env: Env, round: (seq<Content>, Trace) -> Step, replies: nat -> seq<FunctionCall>,
                          content: seq<Content>, t: Trace)
  {
    var s := round(content, t);
    && Extends(t, s.trace) && s.trace.sent == t.sent + [content]
    && |s.trace.invoked| == |t.invoked| + Approvals(env, t.waits, s.trace.waits)
    && (s.Continue? ==> Observations(s.content) && Answers(replies(|t.sent|), s.content))
    && (s.Stop? ==> s.ending != Error(MaxIterationsReached))
  }

  /** Every round from the i-th on goes on to the next one. */
  predicate AllContinue(round: (seq<Content>, Trace) -> Step, i: nat, content: seq<Content>, t: Trace)
    decreases MaxIterations - i
  {
    i >= MaxIterations ||
      var s := round(content, t);
      s.Continue? && AllContinue(round, i + 1, s.content, s.trace)
  }

  /** Every one of RunOneRound's MaxIterations rounds for `query` goes on to the next. */
  predicate AllRoundsContinue(env: Env, query: string)
  {
    AllContinue(RoundIn(env), 0, [Query(query)], Trace([], [], 0, []))
  }

  /**
   * The rounds from `i` on: what they send (each later send is exactly the
   * observations of the reply before it), what they invoke and, on giving
   * up, show last.
   */
  lemma {:induction false} RoundsSpec(env: Env, round: (seq<Content>, Trace) -> Step, replies: nat -> seq<FunctionCall>,
                                      i: nat, content: seq<Content>, t: Trace)
    requires i <= MaxIterations
    requires forall c, t0 :: KeepsPromises(env, round, replies, c, t0)
    ensures var (t', e) := Rounds(round, i, content, t);
      && Extends(t, t')
      && |t'.sent| <= |t.sent| + (MaxIterations - i)
      && (i < MaxIterations ==> |t.sent| < |t'.sent| && t'.sent[|t.sent|] == content)
      && (forall k :: |t.sent| < k < |t'.sent| ==> Observations(t'.sent[k]) && Answers(replies(k - 1), t'.sent[k]))
      && |t'.invoked| == |t.invoked| + Approvals(env, t.waits, t'.waits)
      && (e == Error(MaxIterationsReached) ==>
            |t'.sent| == |t.sent| + (MaxIterations - i) && t'.kinds != [] && t'.kinds[|t'.kinds| - 1] == ErrorBlock(MaxIterationsText))
    decreases MaxIterations - i
  {
    if i >= MaxIterations {
      assert Approvals(env, t.waits, t.waits) == 0;
    } else {
      assert KeepsPromises(env, round, replies, content, t);
      var s := round(content, t);
      if s.Continue? {
        RoundsSpec(env, round, replies, i + 1, s.content, s.trace);
        var (t', e) := Rounds(round, i + 1, s.content, s.trace);
        ApprovalsSplit(env, t.waits, s.trace.waits, t'.waits);
        assert t'.sent[|t.sent|] == s.trace.sent[|t.sent|];
        forall k | |t.sent| < k < |t'.sent|
          ensures Observations(t'.sent[k]) && Answers(replies(k - 1), t'.sent[k])
        {
          if k == |s.trace.sent| {
            assert t'.sent[k] == s.content;
          }
        }
      }
    }
  }

  /** The rounds from `i` on give up exactly when every one of them goes on to the next. */
  lemma {:induction false} RoundsGiveUp(env: Env, round: (seq<Content>, Trace) -> Step, replies: nat -> seq<FunctionCall>,
                                        i: nat, content: seq<Content>, t: Trace)
    requires forall c, t0 :: KeepsPromises(env, round, replies, c, t0)
    ensures Rounds(round, i, content, t).1 == Error(MaxIterationsReached) <==> AllContinue(round, i, content, t)
    decreases MaxIterations - i
  {
    if i < MaxIterations {
      assert KeepsPromises(env, round, replies, content, t);
      var s := round(content, t);
      if s.Continue? {
        RoundsGiveUp(env, round, replies, i + 1, s.content, s.trace);
      }
    }
  }

  /**
   * RunOneRound sends at least once and at most MaxIterations times: the
   * query first, afterwards exactly the observations of the previous
   * reply's calls, one per call in order; it invokes exactly one tool per
   * "1" the user chose; and it ends with the "max iterations" error exactly
   * when all MaxIterations rounds went on, after MaxIterations sends and
   * with the error block shown last.
   */
  lemma RunSpec(env: Env, query: string)
    ensures var (t, e) := Run(env, query);
      && 1 <= |t.sent| <= MaxIterations && t.sent[0] == [Query(query)]
      && (forall k :: 1 <= k < |t.sent| ==> Observations(t.sent[k]) && Answers(ReplyCalls(env, k - 1), t.sent[k]))
      && |t.invoked| == Approvals(env, 0, t.waits)
      && (e == Error(MaxIterationsReached) ==>
            |t.sent| == MaxIterations && t.kinds != [] && t.kinds[|t.kinds| - 1] == ErrorBlock(MaxIterationsText))
  {
    RoundInKeepsPromises(env);
    RoundsSpec(env, RoundIn(env), RepliesIn(env), 0, [Query(query)], Trace([], [], 0, []));
  }

  /** RunOneRound gives up with the "max iterations" error exactly when all MaxIterations rounds went on. */
  lemma GivesUpIffAllContinue(env: Env, query: string)
    ensures Run(env, query).1 == Error(MaxIterationsReached) <==> AllRoundsContinue(env, query)
  {
    RoundInKeepsPromises(env);
    RoundsGiveUp(env, RoundIn(env), RepliesIn(env), 0, [Query(query)], Trace([], [], 0, []));
  }

  /** The calls of each reply, as a function of the send they answer. */
  function RepliesIn(env: Env): nat -> seq<FunctionCall>
  {
    (n: nat) => ReplyCalls(env, n)
  }

  /** Every round of RunOneRound keeps the promises of RoundSpec. */
  lemma RoundInKeepsPromises(env: Env)
    ensures forall c, t0 :: KeepsPromises(env, RoundIn(env), RepliesIn(env), c, t0)
  {
    forall c, t0 ensures KeepsPromises(env, RoundIn(env), RepliesIn(env), c, t0) {
      RoundSpec(env, c, t0);
    }
  }

  /** A user who never answers "1" never has a tool run. */
  lemma NoApprovalNoInvocation(env: Env, query: string)
    requires forall n :: env.wait(n) != Chosen("1")
    ensures Run(env, query).0.invoked == []
  {
    RunSpec(env, query);
    NoApprovals(env, 0, Run(env, query).0.waits);
  }

  lemma {:induction false} NoApprovals(env: Env, lo: nat, hi: nat)
    requires forall n :: env.wait(n) != Chosen("1")
    ensures Approvals(env, lo, hi) == 0
    decreases hi - lo
  {
    if lo < hi {
      NoApprovals(env, lo + 1, hi);
    }
  }
}
