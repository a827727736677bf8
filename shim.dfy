/**
 * The text-to-tool-call shim of the agent (pkg/agent/conversation.go): a
 * model that only writes text is asked to answer with a fenced JSON block
 * holding a thought, an answer and an optional action; the shim reads the
 * streamed text until such a block is complete, parses it, and presents it
 * as one response whose parts are text and function calls.
 *
 * JSON itself is not modelled by its grammar: `decode` stands for
 * json.Unmarshal into a ReActResponse and says which strings parse and to
 * what.
 */
module Shim {
  import opened Wrappers
  import opened GoStrings

  const JsonBlockMarker: string := "```json"
  const Fence: string := "```"

  /** The action the model asks for; field names follow the JSON tags. */
  datatype Action = Action(name: string, reason: string, command: string, modifiesResource: string)

  /** One parsed reply of the model; a missing action is `None` (Go's nil pointer). */
  datatype ReActResponse = ReActResponse(thought: string, answer: string, action: Option<Action>)

  /** A function call handed to the conversation loop: its name and argument map. */
  datatype FunctionCall = FunctionCall(name: string, arguments: map<string, string>)

  /** extractJSON's pair: the text of the block and whether one was found. */
  datatype Extracted = Extracted(block: string, found: bool)

  datatype ParseError = NoJsonBlock | MalformedJson(cleaned: string)

  // ---------------------------------------------------------------------
  // Locating the block
  // ---------------------------------------------------------------------

  /** No fence starts strictly inside an opening marker. */
  lemma NoFenceInsideMarker(s: string, first: int)
    requires OccursAt(s, JsonBlockMarker, first)
    ensures forall j :: first < j < first + |JsonBlockMarker| ==> !OccursAt(s, Fence, j)
  {
    assert s[first..first + 7] == JsonBlockMarker;
    forall j | first < j < first + |JsonBlockMarker| ensures !OccursAt(s, Fence, j) {
      var d := j - first;
      if j + 3 <= |s| {
        if d <= 4 {
          assert s[j + 2] == s[first..first + 7][d + 2];
          assert s[j..j + 3][2] != Fence[2];
        } else {
          assert s[j] == s[first..first + 7][d];
          assert s[j..j + 3][0] != Fence[0];
        }
      }
    }
  }

  /**
   * The text holds a complete block: the marker occurs, and the last fence
   * starts after the first marker. This is the condition on which the shim
   * stops reading.
   */
  predicate BlockComplete(s: string)
  {
    Index(s, JsonBlockMarker) != -1 && Index(s, JsonBlockMarker) < LastIndex(s, Fence)
  }

  /**
   * extractJSON: the text between the end of the first "```json" and the
   * last "```". A block is found exactly when it is complete (the last
   * fence cannot be the one inside the marker), and the slice is then
   * always in bounds.
   */
  function ExtractJSON(s: string): (r: Extracted)
    ensures r.found <==> BlockComplete(s)
    ensures r.found ==> Index(s, JsonBlockMarker) + |JsonBlockMarker| <= LastIndex(s, Fence)
    ensures !r.found ==> r.block == ""
  {
    IndexSpec(s, JsonBlockMarker);
    LastIndexSpec(s, Fence);
    var first := Index(s, JsonBlockMarker);
    var last := LastIndex(s, Fence);
    if first == -1 || last == -1 || first == last then
      Extracted("", false)
    else
      assert OccursAt(s, Fence, first) by {
        assert s[first..first + 3] == s[first..first + 7][..3];
      }
      NoFenceInsideMarker(s, first);
      Extracted(s[first + |JsonBlockMarker|..last], true)
  }

  /** A block is found exactly when the marker occurs and some fence starts after it. */
  lemma FoundIffFenceAfterMarker(s: string)
    ensures ExtractJSON(s).found <==>
      Index(s, JsonBlockMarker) != -1 && exists j :: Index(s, JsonBlockMarker) < j && OccursAt(s, Fence, j)
  {
    IndexSpec(s, JsonBlockMarker);
    LastIndexSpec(s, Fence);
    var first, last := Index(s, JsonBlockMarker), LastIndex(s, Fence);
    if first != -1 && first < last {
      assert OccursAt(s, Fence, last);
    }
  }

  /**
   * When a block is found, the input is: what precedes the first marker, the
   * marker, the block, the last fence, and what follows that fence.
   */
  lemma ExtractJSONSplits(s: string, first: int, last: int)
    requires ExtractJSON(s).found
    requires first == Index(s, JsonBlockMarker) && last == LastIndex(s, Fence)
    ensures 0 <= first && first + |JsonBlockMarker| + |ExtractJSON(s).block| == last && last + |Fence| <= |s|
    ensures s == s[..first] + JsonBlockMarker + ExtractJSON(s).block + Fence + s[last + |Fence|..]
  {
    IndexSpec(s, JsonBlockMarker);
    LastIndexSpec(s, Fence);
    var b := ExtractJSON(s).block;
    assert b == s[first + 7..last];
    var pre, post := s[..first], s[last + 3..];
    assert s[first..first + 7] == JsonBlockMarker;
    assert s[last..last + 3] == Fence;
    var whole := pre + JsonBlockMarker + b + Fence + post;
    assert |whole| == |s|;
    forall k | 0 <= k < |s| ensures whole[k] == s[k] {
      if k < first {
      } else if k < first + 7 {
        assert whole[k] == JsonBlockMarker[k - first];
      } else if k < last {
        assert whole[k] == b[k - first - 7];
      } else if k < last + 3 {
        assert whole[k] == Fence[k - last];
      } else {
        assert whole[k] == post[k - last - 3];
      }
    }
    assert whole == s;
  }

  /** Wrapping a block without backticks in a marker and a fence gives the block back. */
  lemma ExtractWrapped(p: string, body: string, t: string)
    requires '`' !in p && '`' !in body && '`' !in t
    ensures ExtractJSON(p + JsonBlockMarker + body + Fence + t) == Extracted(body, true)
  {
    var s := p + JsonBlockMarker + body + Fence + t;
    var first := |p|;
    var last := |p| + |JsonBlockMarker| + |body|;
    assert s == p + JsonBlockMarker + (body + Fence + t);
    MarkerFirst(p, body + Fence + t);
    assert s == (p + JsonBlockMarker + body) + Fence + t;
    FenceLast(p + JsonBlockMarker + body, t);
    assert s[first + 7..last] == body;
  }

  /** Without a backtick in front of it, the marker is found where it was put. */
  lemma MarkerFirst(p: string, rest: string)
    requires '`' !in p
    ensures Index(p + JsonBlockMarker + rest, JsonBlockMarker) == |p|
  {
    var s := p + JsonBlockMarker + rest;
    var first := |p|;
    assert s[first..first + 7] == JsonBlockMarker;
    assert OccursAt(s, JsonBlockMarker, first);
    forall i | 0 <= i < first ensures !OccursAt(s, JsonBlockMarker, i) {
      if i + 7 <= |s| {
        assert s[i..i + 7][0] == p[i] != JsonBlockMarker[0];
      }
    }
    IndexSpec(s, JsonBlockMarker);
  }

  /** Without a backtick after it, a fence is the last one. */
  lemma FenceLast(front: string, t: string)
    requires '`' !in t
    ensures LastIndex(front + Fence + t, Fence) == |front|
  {
    var s := front + Fence + t;
    var last := |front|;
    assert s[last..last + 3] == Fence;
    assert OccursAt(s, Fence, last);
    forall j | last < j ensures !OccursAt(s, Fence, j) {
      if j + 3 <= |s| {
        if j == last + 1 {
          assert s[j..j + 3][2] == t[0] != Fence[2];
        } else if j == last + 2 {
          assert s[j..j + 3][1] == t[0] != Fence[1];
        } else {
          assert s[j..j + 3][0] == t[j - last - 3] != Fence[0];
        }
      }
    }
    LastIndexSpec(s, Fence);
  }


  // ---------------------------------------------------------------------
  // Parsing the block
  // ---------------------------------------------------------------------

  /**
   * What is handed to the JSON decoder: the block with every "\n" deleted
   * and white space trimmed, i.e. the slice of the newline-free block that
   * has only white space outside it and none at either of its ends.
   */
  function Clean(block: string): (c: string)
    ensures exists i, j :: SpaceAround(Without(block, '\n'), i, j) && c == Without(block, '\n')[i..j]
    ensures '\n' !in c
    ensures c != [] ==> !IsSpace(c[0]) && !IsSpace(c[|c| - 1])
  {
    var joined := ReplaceAll(block, "\n", "");
    ReplaceAllDeletesChar(block, '\n');
    TrimSpaceSpec(joined);
    TrimSpaceKeeps(joined, '\n');
    TrimSpace(joined)
  }

  /**
   * parseReActResponse: no block is an error; otherwise the cleaned block
   * either decodes to the response or is reported as malformed JSON.
   */
  function ParseReActResponse(input: string, decode: string -> Option<ReActResponse>): (r: Result<ReActResponse, ParseError>)
    ensures r == Failure(NoJsonBlock) <==> !ExtractJSON(input).found
    ensures r.Success? <==> ExtractJSON(input).found && decode(Clean(ExtractJSON(input).block)).Some?
    ensures r.Success? ==> Some(r.value) == decode(Clean(ExtractJSON(input).block))
    ensures r.Failure? && r.error.MalformedJson? ==> r.error.cleaned == Clean(ExtractJSON(input).block) && '\n' !in r.error.cleaned
  {
    var e := ExtractJSON(input);
    if !e.found then Failure(NoJsonBlock)
    else
      var cleaned := Clean(e.block);
      match decode(cleaned)
      case None => Failure(MalformedJson(cleaned))
      case Some(resp) => Success(resp)
  }

  /** A reply wrapped in a fence parses to whatever its cleaned body decodes to. */
  lemma ParseWrapped(p: string, body: string, t: string, decode: string -> Option<ReActResponse>)
    requires '`' !in p && '`' !in body && '`' !in t
    ensures ParseReActResponse(p + JsonBlockMarker + body + Fence + t, decode)
      == (match decode(Clean(body))
          case Some(resp) => Success(resp)
          case None => Failure(MalformedJson(Clean(body))))
  {
    ExtractWrapped(p, body, t);
  }

  // ---------------------------------------------------------------------
  // The synthesized response and its parts
  // ---------------------------------------------------------------------

  /** ShimPart: either a text or an action. */
  datatype ShimPart = ShimPart(text: string, action: Option<Action>)

  /** ShimCandidate.Parts: the thought, then the answer, each only if non-empty, then the action if present. */
  function Parts(c: ReActResponse): (parts: seq<ShimPart>)
    ensures |parts| <= 3
    ensures forall k :: 0 <= k < |parts| ==> (parts[k].text != "" <==> parts[k].action.None?)
  {
    (if c.thought != "" then [ShimPart(c.thought, None)] else [])
    + (if c.answer != "" then [ShimPart(c.answer, None)] else [])
    + (if c.action.Some? then [ShimPart("", c.action)] else [])
  }

  /** ShimPart.AsText: the part's text, reported as a text exactly when it is non-empty. */
  function AsText(p: ShimPart): (r: (string, bool))
    ensures r.0 == p.text
    ensures r.1 <==> r.0 != ""
  {
    (p.text, p.text != "")
  }

  /** The action as json.Marshal followed by json.Unmarshal into a map gives it: one entry per JSON tag. */
  function ActionFields(a: Action): map<string, string>
  {
    map["name" := a.name, "reason" := a.reason, "command" := a.command, "modifies_resource" := a.modifiesResource]
  }

  /**
   * ShimPart.AsFunctionCalls: for an action, exactly one call named after
   * the action, whose arguments are reason, command and modifies_resource
   * and never "name"; for a text part, nothing.
   */
  function AsFunctionCalls(p: ShimPart): (r: (seq<FunctionCall>, bool))
    ensures r.1 <==> p.action.Some?
    ensures !r.1 ==> r.0 == []
    ensures r.1 ==> (
      && |r.0| == 1 && r.0[0].name == p.action.value.name
      && "name" !in r.0[0].arguments
      && r.0[0].arguments == map["reason" := p.action.value.reason, "command" := p.action.value.command,
                                 "modifies_resource" := p.action.value.modifiesResource])
  {
    match p.action
    case Some(a) => ([FunctionCall(a.name, ActionFields(a) - {"name"})], true)
    case None => ([], false)
  }

  /** Every part of a parsed reply is exactly one of a text (ShimPart.AsText ok) or a call (AsFunctionCalls ok). */
  lemma PartIsTextOrCall(c: ReActResponse, k: int)
    requires 0 <= k < |Parts(c)|
    ensures AsText(Parts(c)[k]).1 <==> !AsFunctionCalls(Parts(c)[k]).1
    ensures AsText(Parts(c)[k]).1 ==> AsText(Parts(c)[k]).0 != "" && AsFunctionCalls(Parts(c)[k]).0 == []
  {
  }

  // ---------------------------------------------------------------------
  // The stream the shim consumes
  // ---------------------------------------------------------------------

  /** A part of an upstream candidate: text, or anything else (a native function call, say). */
  datatype RawPart = TextPart(text: string) | OtherPart
  datatype Candidate = Candidate(parts: seq<RawPart>)
  /** One step of the upstream iterator: an error, or a response with its candidates. */
  datatype StreamItem = StreamError(message: string) | Response(candidates: seq<Candidate>)

  datatype ShimError =
    | Upstream(message: string)
    | NoCandidates
    | NoTextPart
    | ParsingReAct(buffer: string, cause: ParseError)

  /** The single thing the shimmed stream yields: a response, `(nil, nil)`, or an error. */
  datatype ShimOutcome = Yielded(response: ReActResponse) | NoResponse | Failed(error: ShimError)

  /** The concatenation of a sequence of text parts. */
  function JoinTexts(parts: seq<RawPart>): string
    requires forall k :: 0 <= k < |parts| ==> parts[k].TextPart?
  {
    if parts == [] then "" else JoinTexts(parts[..|parts| - 1]) + parts[|parts| - 1].text
  }

  /** What one upstream item adds to the buffer: its first candidate's text, or the error that ends the stream. */
  function ItemText(item: StreamItem): Result<string, ShimError>
  {
    match item
    case StreamError(m) => Failure(Upstream(m))
    case Response(cs) =>
      if cs == [] then Failure(NoCandidates)
      else if forall k :: 0 <= k < |cs[0].parts| ==> cs[0].parts[k].TextPart? then Success(JoinTexts(cs[0].parts))
      else Failure(NoTextPart)
  }

  /** Where the reading of the upstream stops, and how many items it pulled. */
  datatype Scan = Aborted(error: ShimError, consumed: nat) | Drained(buffer: string, consumed: nat)
  {
    function Later(n: nat): Scan { this.(consumed := consumed + n) }
  }

  /** Reading the upstream with `buffer` already accumulated: stop at an error or once `complete` holds of the buffer. */
  function ScanUntil(items: seq<StreamItem>, buffer: string, complete: string -> bool): Scan
    decreases |items|
  {
    if items == [] then Drained(buffer, 0)
    else match ItemText(items[0])
      case Failure(e) => Aborted(e, 1)
      case Success(t) =>
        if complete(buffer + t) then Drained(buffer + t, 1)
        else ScanUntil(items[1..], buffer + t, complete).Later(1)
  }

  /** The shim's reading: until the buffer holds a complete block. */
  function ScanFrom(items: seq<StreamItem>, buffer: string): Scan
  {
    ScanUntil(items, buffer, BlockComplete)
  }

  /** What the shimmed stream yields for an upstream stream, and how many upstream items it consumed. */
  function ShimResult(items: seq<StreamItem>, decode: string -> Option<ReActResponse>): (ShimOutcome, nat)
  {
    match ScanFrom(items, "")
    case Aborted(e, k) => (Failed(e), k)
    case Drained(buf, k) =>
      if buf == "" then (NoResponse, k)
      else match ParseReActResponse(buf, decode)
        case Failure(pe) => (Failed(ParsingReAct(buf, pe)), k)
        case Success(resp) => (Yielded(resp), k)
  }

  /**
   * The inner loop of candidateToShimCandidate over one candidate's parts:
   * append each text part to the buffer; a part that is not text ends the
   * stream with an error.
   */
  method AppendTexts(buffer: string, parts: seq<RawPart>) returns (ok: bool, extended: string)
    ensures ok <==> forall k :: 0 <= k < |parts| ==> parts[k].TextPart?
    ensures ok ==> extended == buffer + JoinTexts(parts)
  {
    extended := buffer;
    var j := 0;
    while j < |parts|
      invariant 0 <= j <= |parts|
      invariant forall k :: 0 <= k < j ==> parts[k].TextPart?
      invariant extended == buffer + JoinTexts(parts[..j])
    {
      assert parts[..j + 1][..j] == parts[..j];
      match parts[j] {
        case TextPart(text) =>
          extended := extended + text;
        case OtherPart =>
          return false, extended;
      }
      j := j + 1;
    }
    assert parts[..j] == parts;
    ok := true;
  }

  /**
   * candidateToShimCandidate: pull upstream items one at a time, append the
   * text parts of each item's first candidate to a buffer, and stop at the
   * first error or as soon as the buffer holds a complete block; then yield
   * once.
   */
  method CandidateToShimCandidate(upstream: seq<StreamItem>, decode: string -> Option<ReActResponse>)
    returns (out: ShimOutcome, consumed: nat)
    ensures (out, consumed) == ShimResult(upstream, decode)
  {
    var buffer := "";
    var i := 0;
    while i < |upstream|
      invariant 0 <= i <= |upstream|
      invariant ScanFrom(upstream, "") == ScanFrom(upstream[i..], buffer).Later(i)
    {
      assert upstream[i..][0] == upstream[i] && upstream[i..][1..] == upstream[i + 1..];
      match upstream[i] {
        case StreamError(m) =>
          return Failed(Upstream(m)), i + 1;
        case Response(cs) =>
          if |cs| == 0 {
            return Failed(NoCandidates), i + 1;
          }
          var ok;
          ok, buffer := AppendTexts(buffer, cs[0].parts);
          if !ok {
            return Failed(NoTextPart), i + 1;
          }
      }
      i := i + 1;
      if ExtractJSON(buffer).found {
        break;
      }
    }
    consumed := i;
    assert ScanFrom(upstream, "") == Drained(buffer, consumed);
    if buffer == "" {
      return NoResponse, consumed;
    }
    var parsed := ParseReActResponse(buffer, decode);
    match parsed {
      case Failure(pe) => out := Failed(ParsingReAct(buffer, pe));
      case Success(resp) => out := Yielded(resp);
    }
  }
}
