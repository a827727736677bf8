/**
 * The kubectl tool catalogue and kubectl argument assembly
 * (pkg/tools/tools.go). The kubectl command tree is an abstract list of
 * commands with their flags. The decoded JSON arguments of a call are a map
 * from keys to values, listed in the order Go's map iteration happens to
 * visit them. The confirmation read is an oracle indexed by how many
 * confirmations were asked before. A confirmed execution is recorded as
 * the argument vector kubectl would be started with.
 */
module Tools {
  import opened Wrappers
  import opened GoStrings

  const ResourceNameKey := "resource_name"
  const ResourceTypeKey := "resource_type"
  const ResourceNameDescription := "Name of a specific resource instance"
  const ResourceTypeDescription := "Kubernetes resource type (e.g. pod, deployment, service)"

  /** A flag of a kubectl command: its name, its value type and its usage text. */
  datatype Flag = Flag(name: string, typ: string, usage: string)

  /** A kubectl sub-command: its name, long help, examples and flags, in the order they are visited. */
  datatype Command = Command(name: string, long: string, example: string, flags: seq<Flag>)

  /** A value of a tool's parameter map: a plain string, a typed and described property, or a nested map. */
  datatype Value =
    | Text(text: string)
    | Property(typ: string, description: string)
    | Object(fields: map<string, Value>)

  datatype ToolFunction = ToolFunction(name: string, description: string, parameters: map<string, Value>)

  datatype ToolCall = ToolCall(kind: string, fn: ToolFunction)

  // ---------------------------------------------------------------------
  // The catalogue
  // ---------------------------------------------------------------------

  /** One property per flag; a later flag with the same name replaces an earlier one. */
  function FlagProperties(flags: seq<Flag>): map<string, Value>
  {
    if flags == [] then map[]
    else
      var last := flags[|flags| - 1];
      FlagProperties(flags[..|flags| - 1])[last.name := Property(last.typ, last.usage)]
  }

  /** The properties of a command's tool: its flags, then the two resource entries. */
  function Properties(c: Command): map<string, Value>
  {
    FlagProperties(c.flags)
      [ResourceNameKey := Property("string", ResourceNameDescription)]
      [ResourceTypeKey := Property("string", ResourceTypeDescription)]
  }

  /** The name, description and kind every tool for `c` carries. */
  function ToolOf(c: Command, parameters: map<string, Value>): ToolCall
  {
    ToolCall("function", ToolFunction("kubectl " + c.name, c.long + "\n" + c.example + "\n", parameters))
  }

  /** The tool GenerateKubectlCommandsAsTool builds for `c`. */
  function Tool(c: Command): ToolCall
  {
    ToolOf(c, Properties(c))
  }

  /** The tool GenerateKubectlCommandsAsToolOllama builds for `c`. */
  function OllamaTool(c: Command): ToolCall
  {
    ToolOf(c, map["type" := Text("object"), "properties" := Object(Properties(c))])
  }

  /** The names of `flags`. */
  function FlagNames(flags: seq<Flag>): set<string>
  {
    if flags == [] then {} else FlagNames(flags[..|flags| - 1]) + {flags[|flags| - 1].name}
  }

  /**
   * The flag properties name exactly the flags, and each name is described
   * by the last flag visited under it.
   */
  lemma {:induction false} FlagPropertiesSpec(flags: seq<Flag>)
    ensures FlagProperties(flags).Keys == FlagNames(flags)
    ensures forall i :: 0 <= i < |flags| ==> flags[i].name in FlagNames(flags)
    ensures forall i :: 0 <= i < |flags| && (forall j :: i < j < |flags| ==> flags[j].name != flags[i].name) ==>
      FlagProperties(flags)[flags[i].name] == Property(flags[i].typ, flags[i].usage)
  {
    if flags != [] {
      var init := flags[..|flags| - 1];
      FlagPropertiesSpec(init);
      forall i | 0 <= i < |flags| - 1
        ensures flags[i].name in FlagNames(flags)
        ensures (forall j :: i < j < |flags| ==> flags[j].name != flags[i].name) ==>
          FlagProperties(flags)[flags[i].name] == Property(flags[i].typ, flags[i].usage)
      {
        assert init[i] == flags[i];
      }
    }
  }

  /**
   * A generated tool is a "function" named "kubectl <command>"; its
   * parameters name every flag and both resource entries, the resource
   * entries are strings (they win over a flag of the same name), and
   * every other flag is described by its type and usage.
   */
  lemma ToolSpec(c: Command)
    ensures var t := Tool(c);
      && t.kind == "function" && t.fn.name == "kubectl " + c.name
      && t.fn.parameters.Keys == FlagNames(c.flags) + {ResourceNameKey, ResourceTypeKey}
      && t.fn.parameters[ResourceNameKey] == Property("string", ResourceNameDescription)
      && t.fn.parameters[ResourceTypeKey] == Property("string", ResourceTypeDescription)
      && (forall i :: 0 <= i < |c.flags| ==> c.flags[i].name in t.fn.parameters)
      && forall i :: 0 <= i < |c.flags| && c.flags[i].name != ResourceNameKey && c.flags[i].name != ResourceTypeKey
                     && (forall j :: i < j < |c.flags| ==> c.flags[j].name != c.flags[i].name) ==>
           t.fn.parameters[c.flags[i].name] == Property(c.flags[i].typ, c.flags[i].usage)
  {
    FlagPropertiesSpec(c.flags);
  }

  /**
   * The Ollama tool has the same kind, name and description; its parameters
   * are the object type and, under "properties", exactly the parameters of
   * the plain tool.
   */
  lemma OllamaToolSpec(c: Command)
    ensures var o, t := OllamaTool(c), Tool(c);
      && o.kind == t.kind && o.fn.name == t.fn.name && o.fn.description == t.fn.description
      && o.fn.parameters.Keys == {"type", "properties"}
      && o.fn.parameters["type"] == Text("object")
      && o.fn.parameters["properties"] == Object(t.fn.parameters)
  {
  }

  /** flags.VisitAll filling a parameter map: one property per flag, in visiting order. */
  method VisitFlags(flags: seq<Flag>) returns (properties: map<string, Value>)
    ensures properties == FlagProperties(flags)
  {
    properties := map[];
    for i := 0 to |flags|
      invariant properties == FlagProperties(flags[..i])
    {
      assert flags[..i + 1][..i] == flags[..i];
      properties := properties[flags[i].name := Property(flags[i].typ, flags[i].usage)];
    }
    assert flags[..|flags|] == flags;
  }

  /** GenerateKubectlCommandsAsTool: one tool per command, in command order. */
  method GenerateKubectlCommandsAsTool(commands: seq<Command>) returns (tools: seq<ToolCall>)
    ensures |tools| == |commands|
    ensures forall i :: 0 <= i < |commands| ==> tools[i] == Tool(commands[i])
  {
    tools := [];
    for i := 0 to |commands|
      invariant |tools| == i
      invariant forall k :: 0 <= k < i ==> tools[k] == Tool(commands[k])
    {
      var c := commands[i];
      var parameters := VisitFlags(c.flags);
      parameters := parameters[ResourceNameKey := Property("string", ResourceNameDescription)];
      parameters := parameters[ResourceTypeKey := Property("string", ResourceTypeDescription)];
      var tool := ToolCall("function", ToolFunction("kubectl " + c.name, c.long + "\n" + c.example + "\n", parameters));
      tools := tools + [tool];
    }
  }

  /** GenerateKubectlCommandsAsToolOllama: the same tools with their properties nested under an object schema. */
  method GenerateKubectlCommandsAsToolOllama(commands: seq<Command>) returns (tools: seq<ToolCall>)
    ensures |tools| == |commands|
    ensures forall i :: 0 <= i < |commands| ==> tools[i] == OllamaTool(commands[i])
  {
    tools := [];
    for i := 0 to |commands|
      invariant |tools| == i
      invariant forall k :: 0 <= k < i ==> tools[k] == OllamaTool(commands[k])
    {
      var c := commands[i];
      var properties := VisitFlags(c.flags);
      properties := properties[ResourceNameKey := Property("string", ResourceNameDescription)];
      properties := properties[ResourceTypeKey := Property("string", ResourceTypeDescription)];
      var parameters := map["type" := Text("object"), "properties" := Object(properties)];
      var tool := ToolCall("function", ToolFunction("kubectl " + c.name, c.long + "\n" + c.example + "\n", parameters));
      tools := tools + [tool];
    }
  }

  // ---------------------------------------------------------------------
  // Executing a call
  // ---------------------------------------------------------------------

  /** A decoded argument value: a JSON string, or any other value as `%v` prints it. */
  datatype ArgValue = StringArg(s: string) | OtherArg(formatted: string)

  /** The call the model asked for: a function name and its JSON-encoded arguments. */
  datatype ToolCallResponse = ToolCallResponse(name: string, arguments: string)

  /** What a confirmation read returns: the word typed, or the read error. */
  datatype Input = Typed(word: string) | ReadFailed(message: string)

  /**
   * The result of ExecuteCommand (always the empty string), the error it
   * returns, how many confirmations it asked for, and the argument vectors
   * it started kubectl with.
   */
  datatype Outcome = Outcome(output: string, err: Option<string>, prompts: nat, runs: seq<seq<string>>)

  /** The command name ExecuteCommand looks for: the function name with every "kubectl" deleted. */
  function CommandName(name: string): string
  {
    ReplaceAll(name, "kubectl", "")
  }

  /** Stripping "kubectl" from a generated name leaves the separating space in front. */
  lemma GeneratedNameKeepsSpace(n: string)
    ensures CommandName("kubectl " + n) == " " + CommandName(n)
  {
    var s := "kubectl " + n;
    assert OccursAt(s, "kubectl", 0) by {
      assert s[0..7] == "kubectl";
    }
    assert s[7..] == " " + n;
    assert !OccursAt(" " + n, "kubectl", 0) by {
      assert (" " + n)[0] == ' ';
    }
    assert (" " + n)[1..] == n;
    calc {
      ReplaceAll(s, "kubectl", "");
      "" + ReplaceAll(s[|"kubectl"|..], "kubectl", "");
      { assert s[|"kubectl"|..] == " " + n; }
      ReplaceAll(" " + n, "kubectl", "");
      [' '] + ReplaceAll(n, "kubectl", "");
    }
  }

  /** `order` lists every key of `params` exactly once: how Go's map iteration visits them. */
  ghost predicate Enumerates(order: seq<string>, params: map<string, ArgValue>)
  {
    && (forall k :: k in order <==> k in params)
    && (forall i, j :: 0 <= i < j < |order| ==> order[i] != order[j])
  }

  /** A key that becomes a positional argument rather than a flag. */
  predicate IsResourceKey(k: string)
  {
    k == ResourceTypeKey || k == ResourceNameKey
  }

  /** The `%v` text of a value. */
  function Show(v: ArgValue): string
  {
    match v
    case StringArg(s) => s
    case OtherArg(f) => f
  }

  /** The flag argument "--k=v". */
  function FlagArg(k: string, v: ArgValue): string
  {
    "--" + k + "=" + Show(v)
  }

  /** A resource argument: its value if it is a JSON string, and "" otherwise or when absent. */
  function StringParam(params: map<string, ArgValue>, k: string): string
  {
    if k in params && params[k].StringArg? then params[k].s else ""
  }

  /** The keys that become flags, in visiting order. */
  function FlagKeys(order: seq<string>): (r: seq<string>)
    ensures |r| <= |order|
    ensures forall k :: k in r <==> k in order && !IsResourceKey(k)
  {
    if order == [] then []
    else
      var last := order[|order| - 1];
      FlagKeys(order[..|order| - 1]) + (if IsResourceKey(last) then [] else [last])
  }

  /** The flag arguments, in visiting order. */
  function FlagArgs(params: map<string, ArgValue>, order: seq<string>): seq<string>
    requires forall k :: k in order ==> k in params
  {
    if order == [] then []
    else
      var last := order[|order| - 1];
      FlagArgs(params, order[..|order| - 1]) + (if IsResourceKey(last) then [] else [FlagArg(last, params[last])])
  }

  /**
   * Every key other than resource_type and resource_name yields exactly one
   * "--k=v", in visiting order; the two resource keys never become flags.
   */
  lemma {:induction false} FlagArgsSpec(params: map<string, ArgValue>, order: seq<string>)
    requires Enumerates(order, params)
    ensures var keys := FlagKeys(order);
      && (forall k :: k in keys <==> k in params && !IsResourceKey(k))
      && (forall i, j :: 0 <= i < j < |keys| ==> keys[i] != keys[j])
      && |FlagArgs(params, order)| == |keys|
      && forall i :: 0 <= i < |keys| ==> FlagArgs(params, order)[i] == FlagArg(keys[i], params[keys[i]])
  {
    FlagArgsOver(params, order);
  }

  lemma {:induction false} FlagArgsOver(params: map<string, ArgValue>, order: seq<string>)
    requires forall k :: k in order ==> k in params
    requires forall i, j :: 0 <= i < j < |order| ==> order[i] != order[j]
    ensures var keys := FlagKeys(order);
      && (forall i, j :: 0 <= i < j < |keys| ==> keys[i] != keys[j])
      && |FlagArgs(params, order)| == |keys|
      && forall i :: 0 <= i < |keys| ==> FlagArgs(params, order)[i] == FlagArg(keys[i], params[keys[i]])
  {
    if order != [] {
      var init := order[..|order| - 1];
      var last := order[|order| - 1];
      assert forall k :: k in init ==> k in order;
      FlagArgsOver(params, init);
      assert last !in init by {
        forall i | 0 <= i < |init| ensures init[i] != last {
          assert init[i] == order[i];
        }
      }
      var keys, args := FlagKeys(init), FlagArgs(params, init);
      if IsResourceKey(last) {
        assert FlagKeys(order) == keys && FlagArgs(params, order) == args;
      } else {
        assert FlagKeys(order) == keys + [last];
        assert FlagArgs(params, order) == args + [FlagArg(last, params[last])];
        assert last !in keys;
      }
    }
  }

  /** The positional arguments: the resource type, then the resource name, each only if non-empty. */
  function Positional(resourceType: string, resourceName: string): seq<string>
  {
    (if resourceType != "" then [resourceType] else []) + (if resourceName != "" then [resourceName] else [])
  }

  /**
   * The loop over the command tree from the commands in `commands` on:
   * every command named `name` prepends the positional arguments to
   * `args` and asks for confirmation; a read error ends it with that
   * error; a "y" in any case runs kubectl with the command name and `args`.
   */
  function Execute(name: string, commands: seq<Command>, args: seq<string>, resourceType: string, resourceName: string,
                   read: nat -> Input, prompts: nat, runs: seq<seq<string>>): Outcome
    decreases |commands|
  {
    if commands == [] then Outcome("", None, prompts, runs)
    else if commands[0].name != name then Execute(name, commands[1..], args, resourceType, resourceName, read, prompts, runs)
    else
      var args' := Positional(resourceType, resourceName) + args;
      match read(prompts)
      case ReadFailed(m) => Outcome("", Some(m), prompts + 1, runs)
      case Typed(w) =>
        var runs' := if EqualFoldY(w) then runs + [[commands[0].name] + args'] else runs;
        Execute(name, commands[1..], args', resourceType, resourceName, read, prompts + 1, runs')
  }

  /** What ExecuteCommand does with a call whose arguments decode to `params`, visited in `order`. */
  function ExecuteCommandSpec(call: ToolCallResponse, params: map<string, ArgValue>, order: seq<string>,
                              commands: seq<Command>, read: nat -> Input): Outcome
    requires Enumerates(order, params)
  {
    Execute(CommandName(call.name), commands, FlagArgs(params, order),
            StringParam(params, ResourceTypeKey), StringParam(params, ResourceNameKey), read, 0, [])
  }

  /** How many of the reads numbered lo .. hi-1 were a "y" in some case. */
  function Yeses(read: nat -> Input, lo: nat, hi: nat): nat
    decreases hi - lo
  {
    if lo >= hi then 0 else (if read(lo).Typed? && EqualFoldY(read(lo).word) then 1 else 0) + Yeses(read, lo + 1, hi)
  }

  /** How many of `commands` are named `name`. */
  function Matches(name: string, commands: seq<Command>): nat
  {
    if commands == [] then 0 else (if commands[0].name == name then 1 else 0) + Matches(name, commands[1..])
  }

  /**
   * ExecuteCommand always returns the empty string; it asks at most once
   * per command; it returns an error exactly when a confirmation read
   * failed, and then that read was its last and every earlier one
   * succeeded; without an error it asked once per command of the name; it
   * starts kubectl exactly once per "y" and only for the named command.
   */
  lemma {:induction false} ExecuteSpec(name: string, commands: seq<Command>, args: seq<string>, resourceType: string,
                                       resourceName: string, read: nat -> Input, prompts: nat, runs: seq<seq<string>>)
    ensures var o := Execute(name, commands, args, resourceType, resourceName, read, prompts, runs);
      && o.output == ""
      && prompts <= o.prompts <= prompts + |commands|
      && (o.err.Some? ==> prompts < o.prompts && read(o.prompts - 1) == ReadFailed(o.err.value))
      && (prompts < o.prompts && read(o.prompts - 1).ReadFailed? ==> o.err == Some(read(o.prompts - 1).message))
      && (forall k :: prompts <= k < o.prompts - 1 ==> read(k).Typed?)
      && (o.err.None? ==> o.prompts == prompts + Matches(name, commands) && forall k :: prompts <= k < o.prompts ==> read(k).Typed?)
      && runs <= o.runs && |o.runs| == |runs| + Yeses(read, prompts, o.prompts)
      && forall k :: |runs| <= k < |o.runs| ==> o.runs[k] != [] && o.runs[k][0] == name
    decreases |commands|
  {
    if commands != [] {
      var args' := Positional(resourceType, resourceName) + args;
      if commands[0].name != name {
        ExecuteSpec(name, commands[1..], args, resourceType, resourceName, read, prompts, runs);
      } else if read(prompts).ReadFailed? {
        assert Yeses(read, prompts + 1, prompts + 1) == 0;
      } else {
        var w := read(prompts).word;
        var runs' := if EqualFoldY(w) then runs + [[commands[0].name] + args'] else runs;
        ExecuteSpec(name, commands[1..], args', resourceType, resourceName, read, prompts + 1, runs');
      }
    } else {
      assert Yeses(read, prompts, prompts) == 0;
    }
  }

  /** Without a command of that name nothing is asked and nothing runs. */
  lemma {:induction false} NoMatchDoesNothing(name: string, commands: seq<Command>, args: seq<string>, resourceType: string,
                                              resourceName: string, read: nat -> Input, prompts: nat, runs: seq<seq<string>>)
    requires forall i :: 0 <= i < |commands| ==> commands[i].name != name
    ensures Execute(name, commands, args, resourceType, resourceName, read, prompts, runs) == Outcome("", None, prompts, runs)
    decreases |commands|
  {
    if commands != [] {
      NoMatchDoesNothing(name, commands[1..], args, resourceType, resourceName, read, prompts, runs);
    }
  }

  /**
   * A call naming one command of the tree, confirmed with "y", runs kubectl
   * once with that command, the resource type and name (if non-empty),
   * then every flag.
   */
  lemma SingleMatchRuns(call: ToolCallResponse, params: map<string, ArgValue>, order: seq<string>,
                        commands: seq<Command>, read: nat -> Input, m: nat)
    requires Enumerates(order, params)
    requires m < |commands| && commands[m].name == CommandName(call.name)
    requires forall i :: 0 <= i < |commands| && i != m ==> commands[i].name != commands[m].name
    requires read(0).Typed? && EqualFoldY(read(0).word)
    ensures ExecuteCommandSpec(call, params, order, commands, read)
      == Outcome("", None, 1, [[commands[m].name]
                                + Positional(StringParam(params, ResourceTypeKey), StringParam(params, ResourceNameKey))
                                + FlagArgs(params, order)])
  {
    ExecuteSingleMatch(CommandName(call.name), commands, m, FlagArgs(params, order),
                       StringParam(params, ResourceTypeKey), StringParam(params, ResourceNameKey), read);
  }

  /** The loop over the tree with exactly one command of the name, confirmed with "y". */
  lemma ExecuteSingleMatch(name: string, commands: seq<Command>, m: nat, args: seq<string>,
                           resourceType: string, resourceName: string, read: nat -> Input)
    requires m < |commands| && commands[m].name == name
    requires forall i :: 0 <= i < |commands| && i != m ==> commands[i].name != name
    requires read(0).Typed? && EqualFoldY(read(0).word)
    ensures Execute(name, commands, args, resourceType, resourceName, read, 0, [])
      == Outcome("", None, 1, [[name] + Positional(resourceType, resourceName) + args])
  {
    NoMatchBefore(name, commands, m, args, resourceType, resourceName, read);
    var rest := commands[m + 1..];
    assert commands[m..][0] == commands[m] && commands[m..][1..] == rest;
    var args' := Positional(resourceType, resourceName) + args;
    var run := [name] + args';
    assert [] + [run] == [run];
    assert Execute(name, commands[m..], args, resourceType, resourceName, read, 0, [])
        == Execute(name, rest, args', resourceType, resourceName, read, 1, [run]);
    assert forall i :: 0 <= i < |rest| ==> rest[i].name != name by {
      forall i | 0 <= i < |rest| ensures rest[i].name != name {
        assert rest[i] == commands[m + 1 + i];
      }
    }
    NoMatchDoesNothing(name, rest, args', resourceType, resourceName, read, 1, [run]);
    assert run == [name] + Positional(resourceType, resourceName) + args;
  }

  /** Skipping the commands before the first match changes nothing. */
  lemma {:induction false} NoMatchBefore(name: string, commands: seq<Command>, m: nat, args: seq<string>,
                                         resourceType: string, resourceName: string, read: nat -> Input)
    requires m < |commands| && forall i :: 0 <= i < m ==> commands[i].name != name
    ensures Execute(name, commands, args, resourceType, resourceName, read, 0, [])
         == Execute(name, commands[m..], args, resourceType, resourceName, read, 0, [])
    decreases m
  {
    if m > 0 {
      assert commands[0].name != name;
      NoMatchBefore(name, commands[1..], m - 1, args, resourceType, resourceName, read);
      assert commands[1..][m - 1..] == commands[m..];
    }
  }

  /**
   * A name produced by either generator never equals a command name of the
   * tree (no kubectl command name starts with a space), so executing a
   * generated call asks nothing and runs nothing.
   */
  lemma GeneratedCallsRunNothing(c: Command, call: ToolCallResponse, params: map<string, ArgValue>, order: seq<string>,
                                 commands: seq<Command>, read: nat -> Input)
    requires Enumerates(order, params)
    requires call.name == Tool(c).fn.name
    requires forall i :: 0 <= i < |commands| ==> commands[i].name == [] || commands[i].name[0] != ' '
    ensures ExecuteCommandSpec(call, params, order, commands, read) == Outcome("", None, 0, [])
  {
    GeneratedNameKeepsSpace(c.name);
    var name := CommandName(call.name);
    assert name[0] == ' ';
    NoMatchDoesNothing(name, commands, FlagArgs(params, order),
                       StringParam(params, ResourceTypeKey), StringParam(params, ResourceNameKey), read, 0, []);
  }

  /** The first loop of ExecuteCommand: sort the decoded arguments into resource type, resource name and flags. */
  method CollectArgs(params: map<string, ArgValue>, order: seq<string>) returns (resourceType: string, resourceName: string, args: seq<string>)
    requires Enumerates(order, params)
    ensures resourceType == StringParam(params, ResourceTypeKey)
    ensures resourceName == StringParam(params, ResourceNameKey)
    ensures args == FlagArgs(params, order)
  {
    resourceType, resourceName, args := "", "", [];
    for i := 0 to |order|
      invariant resourceType == (if ResourceTypeKey in order[..i] then StringParam(params, ResourceTypeKey) else "")
      invariant resourceName == (if ResourceNameKey in order[..i] then StringParam(params, ResourceNameKey) else "")
      invariant args == FlagArgs(params, order[..i])
    {
      assert order[..i + 1][..i] == order[..i];
      assert order[..i + 1] == order[..i] + [order[i]];
      var key := order[i];
      var val := params[key];
      if key == ResourceTypeKey {
        resourceType := if val.StringArg? then val.s else "";
      } else if key == ResourceNameKey {
        resourceName := if val.StringArg? then val.s else "";
      } else {
        args := args + ["--" + key + "=" + Show(val)];
      }
    }
    assert order[..|order|] == order;
  }

  /**
   * ExecuteCommand: decode the arguments, sort them, then for every command
   * of the tree with the stripped name build the argument list, ask for
   * confirmation and run kubectl on "y".
   */
  method ExecuteCommand(call: ToolCallResponse, unmarshal: string -> map<string, ArgValue>, order: seq<string>,
                        commands: seq<Command>, read: nat -> Input)
    returns (output: string, err: Option<string>, prompts: nat, runs: seq<seq<string>>)
    requires Enumerates(order, unmarshal(call.arguments))
    ensures Outcome(output, err, prompts, runs) == ExecuteCommandSpec(call, unmarshal(call.arguments), order, commands, read)
  {
    var name := CommandName(call.name);
    var params := unmarshal(call.arguments);
    var resourceType, resourceName, args := CollectArgs(params, order);
    prompts, runs := 0, [];
    for i := 0 to |commands|
      invariant ExecuteCommandSpec(call, params, order, commands, read)
             == Execute(name, commands[i..], args, resourceType, resourceName, read, prompts, runs)
    {
      assert commands[i..][1..] == commands[i + 1..];
      if commands[i].name != name {
        continue;
      }
      var prepend: seq<string> := [];
      if resourceType != "" {
        prepend := prepend + [resourceType];
      }
      if resourceName != "" {
        prepend := prepend + [resourceName];
      }
      assert prepend == Positional(resourceType, resourceName);
      args := prepend + args;
      var input := read(prompts);
      prompts := prompts + 1;
      match input
      case ReadFailed(m) =>
        return "", Some(m), prompts, runs;
      case Typed(w) =>
        if EqualFoldY(w) {
          runs := runs + [[commands[i].name] + args];
        }
    }
    return "", None, prompts, runs;
  }
}
