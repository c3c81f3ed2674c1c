/** The backend's agent: its system message may come from its one toolset,
    its toolsets' functions are registered with the inner pair when it has a
    model configuration, and it answers through the inner pair. */
module AutogenAgents {
  import opened Outcomes
  import opened JsonValue
  import opened Toolsets
  import opened InnerChat

  const DEFAULT_PROMPT: string := "You are a helpful AI Assistant."
  const DEFAULT_DESCRIPTION: string := "A helpful AI Assistant."

  /** The `llm_config` argument: absent (None), switched off (False) or a
      configuration dictionary, which a deep copy leaves equal. */
  datatype LlmConfig = NoConfig | Disabled | Config(settings: map<string, Json>)

  /** `inner_llm_config not in [None, False]`. */
  predicate RegistersTools(config: LlmConfig) {
    config.Config?
  }

  /** Python truthiness of an optional string argument. */
  predicate Given(s: Option<string>) {
    s.Some? && s.value != []
  }

  /** The system message the agent ends up with. With exactly one toolset
      the toolset is looked up, and an unknown name fails whatever message
      was given; its prompt stands in for a missing message; the default
      prompt stands in for whatever is still empty. */
  function SystemMessage(registered: seq<Toolset>, names: seq<string>, systemMessage: Option<string>)
    : (r: Result<string>)
    ensures |names| == 1 ==> (r.Ok? <==> Lookup(registered, names[0]).Ok?)
    ensures |names| != 1 ==> r.Ok?
    ensures r.Err? ==> |names| == 1 && r.error == NotFound(names[0])
    ensures r.Ok? && Given(systemMessage) ==> r.value == systemMessage.value
    ensures r.Ok? && !Given(systemMessage) && |names| == 1 && Lookup(registered, names[0]).value.agentSystemPrompt != [] ==>
      r.value == Lookup(registered, names[0]).value.agentSystemPrompt
    ensures r.Ok? && !Given(systemMessage) && (|names| != 1 || Lookup(registered, names[0]).value.agentSystemPrompt == []) ==>
      r.value == DEFAULT_PROMPT
    ensures r.Ok? ==> r.value != []
  {
    var message :-
      if |names| == 1 then
        var mainSet :- Lookup(registered, names[0]);
        Ok(if Given(systemMessage) then systemMessage else Some(mainSet.agentSystemPrompt))
      else Ok(systemMessage);
    Ok(if Given(message) then message.value else DEFAULT_PROMPT)
  }

  /** `description or DEFAULT_DESCRIPTION`. */
  function Description(description: Option<string>): (r: string)
    ensures r != []
    ensures Given(description) ==> r == description.value
    ensures !Given(description) ==> r == DEFAULT_DESCRIPTION
  {
    if Given(description) then description.value else DEFAULT_DESCRIPTION
  }

  /** A function whose first parameter is named `self`. */
  predicate TakesSelf(t: Tool) {
    t.params != [] && t.params[0] == "self"
  }

  /** How a selected tool is registered: bound to the agent when it takes
      `self`, as it is otherwise. */
  function Wrap(t: Tool): (x: Registration)
    ensures x.tool == t
    ensures x.BoundToAgent? <==> TakesSelf(t)
  {
    if TakesSelf(t) then BoundToAgent(t) else Direct(t)
  }

  /** The functions of a toolset that get registered, in order: those whose
      name the agent's function map already has are skipped, the others are
      wrapped. */
  function Selected(functions: seq<Tool>, functionMap: set<string>): (r: seq<Registration>)
    ensures |r| <= |functions|
    ensures forall x :: x in r ==> x.tool in functions && x.tool.name !in functionMap
    ensures forall x :: x in r ==> x == Wrap(x.tool)
    ensures forall t :: t in functions && t.name !in functionMap ==> Wrap(t) in r
  {
    if functions == [] then []
    else
      var t := functions[0];
      var rest := Selected(functions[1..], functionMap);
      var r := if t.name in functionMap then rest else [Wrap(t)] + rest;
      assert forall x :: x in r ==> x == Wrap(t) || x in rest;
      assert forall u :: u in functions[1..] ==> u in functions;
      assert forall u :: u in functions ==> u == t || u in functions[1..];
      r
  }

  /** Selecting from one more function selects what was selected before,
      then that function unless its name is taken. */
  lemma {:induction false} SelectedAppend(functions: seq<Tool>, t: Tool, functionMap: set<string>)
    ensures Selected(functions + [t], functionMap) ==
      Selected(functions, functionMap) + (if t.name in functionMap then [] else [Wrap(t)])
  {
    if functions == [] {
      assert [t][1..] == [];
    } else {
      assert (functions + [t])[1..] == functions[1..] + [t];
      SelectedAppend(functions[1..], t, functionMap);
    }
  }

  /** The effect of registering toolsets: the init hooks called, the tools
      registered, and how it ended. */
  datatype Registered = Registered(hooks: seq<Hook>, tools: seq<Registration>, outcome: Outcome)

  /** Registering one toolset: look it up, call its init hook if it has one,
      then register its selected functions, stopping at the first without a
      docstring. */
  function RegisterOne(registered: seq<Toolset>, name: string, functionMap: set<string>): (r: Registered)
    ensures forall x :: x in r.tools ==> Documented(x.tool) && x.tool.name !in functionMap
    ensures Lookup(registered, name).Err? ==> r == Registered([], [], Fail(NotFound(name)))
    ensures Lookup(registered, name).Ok? ==>
      r.hooks == (if Lookup(registered, name).value.init.Some? then [Lookup(registered, name).value.init.value] else [])
  {
    match Lookup(registered, name)
    case Err(e) => Registered([], [], Fail(e))
    case Ok(toolset) =>
      var hooks := if toolset.init.Some? then [toolset.init.value] else [];
      var functions := Selected(toolset.functions, functionMap);
      var n := DocumentedPrefix(functions);
      assert forall x :: x in functions[..n] ==> Documented(x.tool) by {
        forall x | x in functions[..n] ensures Documented(x.tool) {
          var i :| 0 <= i < n && functions[..n][i] == x;
        }
      }
      Registered(hooks, functions[..n], if n == |functions| then Pass else Fail(MissingDocstring(functions[n].tool)))
  }

  /** A toolset that registers without failing: it is found, and every
      function of it that gets selected has a docstring. */
  predicate Registrable(registered: seq<Toolset>, name: string, functionMap: set<string>) {
    && Lookup(registered, name).Ok?
    && forall x :: x in Selected(Lookup(registered, name).value.functions, functionMap) ==> Documented(x.tool)
  }

  /** A found toolset's selected functions are registered in order up to
      the first without a docstring, which fails the registration; it
      succeeds exactly when the toolset is found and none lacks one. */
  lemma RegisterOneStopsAtFirstUndocumented(registered: seq<Toolset>, name: string, functionMap: set<string>)
    ensures var r := RegisterOne(registered, name, functionMap);
      && (Lookup(registered, name).Ok? ==>
        var fs := Selected(Lookup(registered, name).value.functions, functionMap);
        var n := DocumentedPrefix(fs);
        && r.tools == fs[..n]
        && (r.outcome.Pass? <==> n == |fs|)
        && (r.outcome.Fail? ==> r.outcome.error == MissingDocstring(fs[n].tool)))
      && (r.outcome.Pass? <==> Registrable(registered, name, functionMap))
  {
  }

  /** Registration results in order, combined: effects accumulate up to and
      including the first that failed, whose failure ends the whole. */
  function Compose(steps: seq<Registered>): Registered {
    if steps == [] then Registered([], [], Pass)
    else if steps[0].outcome.Fail? then steps[0]
    else Then(steps[0], Compose(steps[1..]))
  }

  /** The effects of one registration followed by another's. */
  function Then(first: Registered, second: Registered): Registered {
    Registered(first.hooks + second.hooks, first.tools + second.tools, second.outcome)
  }

  /** Composing from position `i` on: that step, then the rest unless it
      failed. */
  lemma ComposeFrom(steps: seq<Registered>, i: nat)
    requires i < |steps|
    ensures Compose(steps[i..]) ==
      if steps[i].outcome.Fail? then steps[i] else Then(steps[i], Compose(steps[i + 1..]))
  {
    assert steps[i..][1..] == steps[i + 1..];
  }

  lemma ThenAssociates(a: Registered, b: Registered, c: Registered)
    ensures Then(Then(a, b), c) == Then(a, Then(b, c))
  {
    assert a.hooks + b.hooks + c.hooks == a.hooks + (b.hooks + c.hooks);
    assert a.tools + b.tools + c.tools == a.tools + (b.tools + c.tools);
  }

  /** `step` is what registering `name` on its own does. */
  ghost predicate IsStep(registered: seq<Toolset>, name: string, functionMap: set<string>, step: Registered) {
    step == RegisterOne(registered, name, functionMap)
  }

  /** Each name's registration, on its own. */
  function Steps(registered: seq<Toolset>, names: seq<string>, functionMap: set<string>): (r: seq<Registered>)
    ensures |r| == |names|
    ensures forall i {:trigger IsStep(registered, names[i], functionMap, r[i])} :: 0 <= i < |names| ==>
      IsStep(registered, names[i], functionMap, r[i])
  {
    if names == [] then []
    else [RegisterOne(registered, names[0], functionMap)] + Steps(registered, names[1..], functionMap)
  }

  /** `_register_toolsets(names)`: the toolsets in order, stopping at the
      first failure. */
  function RegisterAll(registered: seq<Toolset>, names: seq<string>, functionMap: set<string>): Registered
  {
    Compose(Steps(registered, names, functionMap))
  }

  /** Every tool registered has a docstring and a name not already in the
      agent's function map, and a registration that succeeds found every
      toolset it was given. */
  lemma {:induction false} RegisteredToolsAreChecked(registered: seq<Toolset>, names: seq<string>, functionMap: set<string>)
    ensures forall x :: x in RegisterAll(registered, names, functionMap).tools ==>
      Documented(x.tool) && x.tool.name !in functionMap
    ensures RegisterAll(registered, names, functionMap).outcome.Pass? ==>
      forall i :: 0 <= i < |names| ==> Lookup(registered, names[i]).Ok?
  {
    if names != [] {
      RegisterAllUnfolds(registered, names, functionMap);
      var first := RegisterOne(registered, names[0], functionMap);
      if first.outcome.Pass? {
        RegisteredToolsAreChecked(registered, names[1..], functionMap);
        var rest := RegisterAll(registered, names[1..], functionMap);
        assert forall x :: x in first.tools + rest.tools ==> x in first.tools || x in rest.tools;
        assert forall i :: 1 <= i < |names| ==> names[i] == names[1..][i - 1];
      }
    }
  }

  /** Registration gets through exactly when every toolset is found and
      every function selected from it has a docstring. */
  lemma {:induction false} RegistrationSucceedsIff(registered: seq<Toolset>, names: seq<string>, functionMap: set<string>)
    ensures RegisterAll(registered, names, functionMap).outcome.Pass? <==>
      forall i :: 0 <= i < |names| ==> Registrable(registered, names[i], functionMap)
  {
    if names != [] {
      RegisterAllUnfolds(registered, names, functionMap);
      RegisterOneStopsAtFirstUndocumented(registered, names[0], functionMap);
      RegistrationSucceedsIff(registered, names[1..], functionMap);
      assert forall i :: 1 <= i < |names| ==> names[i] == names[1..][i - 1];
    }
  }

  /** Registering a list of names: the first name's registration, then the
      rest's unless the first failed. */
  lemma RegisterAllUnfolds(registered: seq<Toolset>, names: seq<string>, functionMap: set<string>)
    requires names != []
    ensures var first := RegisterOne(registered, names[0], functionMap);
      RegisterAll(registered, names, functionMap) ==
        if first.outcome.Fail? then first else Then(first, RegisterAll(registered, names[1..], functionMap))
  {
    var steps := Steps(registered, names, functionMap);
    assert Steps(registered, names[1..], functionMap) == steps[1..];
    assert IsStep(registered, names[0], functionMap, steps[0]);
  }

  class AutogenAgent {
    const name: string
    const systemMessage: string
    const description: string
    const functionMap: set<string>
    const llmConfig: LlmConfig
    const inner: InnerPair
    /** The init hooks called on this agent, in order. */
    var initCalls: seq<Hook>
    /** The messages recorded per sender. */
    var oaiMessages: map<Option<Peer>, seq<Message>>

    constructor(name: string, systemMessage: string, description: string, functionMap: set<string>,
                llmConfig: LlmConfig)
      ensures this.name == name && this.systemMessage == systemMessage && this.description == description
      ensures this.functionMap == functionMap && this.llmConfig == llmConfig
      ensures fresh(inner) && inner.assistantTools == [] && inner.proxyTools == []
      ensures inner.assistantChat == [] && inner.proxyChat == []
      ensures initCalls == [] && oaiMessages == map[]
    {
      this.name := name;
      this.systemMessage := systemMessage;
      this.description := description;
      this.functionMap := functionMap;
      this.llmConfig := llmConfig;
      this.inner := new InnerPair();
      initCalls := [];
      oaiMessages := map[];
    }

    /** `_register_toolsets(names)`. */
    method RegisterToolsets(names: seq<string>, registry: Registry) returns (r: Outcome)
      modifies this, inner
      ensures var spec := RegisterAll(registry.toolsets, names, functionMap);
        && initCalls == old(initCalls) + spec.hooks
        && inner.assistantTools == old(inner.assistantTools) + spec.tools
        && inner.proxyTools == old(inner.proxyTools) + spec.tools
        && r == spec.outcome
      ensures oaiMessages == old(oaiMessages)
      ensures inner.assistantChat == old(inner.assistantChat) && inner.proxyChat == old(inner.proxyChat)
    {
      r := RegisterEach(names, registry, Steps(registry.toolsets, names, functionMap));
    }

    /** The loop of `_register_toolsets`, given what each name's round does:
        rounds run in order until one fails. */
    method RegisterEach(names: seq<string>, registry: Registry, ghost steps: seq<Registered>) returns (r: Outcome)
      requires |steps| == |names|
      requires forall i {:trigger IsStep(registry.toolsets, names[i], functionMap, steps[i])} :: 0 <= i < |names| ==>
        IsStep(registry.toolsets, names[i], functionMap, steps[i])
      modifies this, inner
      ensures var spec := Compose(steps);
        && initCalls == old(initCalls) + spec.hooks
        && inner.assistantTools == old(inner.assistantTools) + spec.tools
        && inner.proxyTools == old(inner.proxyTools) + spec.tools
        && r == spec.outcome
      ensures oaiMessages == old(oaiMessages)
      ensures inner.assistantChat == old(inner.assistantChat) && inner.proxyChat == old(inner.proxyChat)
    {
      ghost var all := Compose(steps);
      ghost var done := Registered([], [], Pass);
      var i := 0;
      while i < |names|
        invariant 0 <= i <= |names|
        invariant all == Then(done, Compose(steps[i..]))
        invariant initCalls == old(initCalls) + done.hooks
        invariant inner.assistantTools == old(inner.assistantTools) + done.tools
        invariant inner.proxyTools == old(inner.proxyTools) + done.tools
        invariant oaiMessages == old(oaiMessages)
        invariant inner.assistantChat == old(inner.assistantChat) && inner.proxyChat == old(inner.proxyChat)
      {
        ComposeFrom(steps, i);
        ThenAssociates(done, steps[i], Compose(steps[i + 1..]));
        r := RegisterToolset(names, i, registry, steps);
        assert old(initCalls) + done.hooks + steps[i].hooks == old(initCalls) + (done.hooks + steps[i].hooks);
        assert old(inner.assistantTools) + done.tools + steps[i].tools == old(inner.assistantTools) + (done.tools + steps[i].tools);
        assert old(inner.proxyTools) + done.tools + steps[i].tools == old(inner.proxyTools) + (done.tools + steps[i].tools);
        done := Then(done, steps[i]);
        if r.Fail? {
          return;
        }
        i := i + 1;
      }
      return Pass;
    }

    /** One round of the loop of `_register_toolsets`: find the toolset, call
        its init hook, register its selected functions. */
    method RegisterToolset(names: seq<string>, i: nat, registry: Registry, ghost steps: seq<Registered>)
      returns (r: Outcome)
      requires i < |names| == |steps|
      requires forall i {:trigger IsStep(registry.toolsets, names[i], functionMap, steps[i])} :: 0 <= i < |names| ==>
        IsStep(registry.toolsets, names[i], functionMap, steps[i])
      modifies this, inner
      ensures initCalls == old(initCalls) + steps[i].hooks
      ensures inner.assistantTools == old(inner.assistantTools) + steps[i].tools
      ensures inner.proxyTools == old(inner.proxyTools) + steps[i].tools
      ensures r == steps[i].outcome
      ensures oaiMessages == old(oaiMessages)
      ensures inner.assistantChat == old(inner.assistantChat) && inner.proxyChat == old(inner.proxyChat)
    {
      assert IsStep(registry.toolsets, names[i], functionMap, steps[i]);
      var name := names[i];
      var found := registry.Find(name);
      if found.Err? {
        return Fail(found.error);
      }
      var toolset := found.value;
      if toolset.init.Some? {
        initCalls := initCalls + [toolset.init.value];
      }
      var functions := Select(toolset.functions);
      r := inner.RegisterFunctions(functions);
    }

    /** The loop of `_register_toolsets` that builds the function list of one
        toolset. */
    method Select(functions: seq<Tool>) returns (r: seq<Registration>)
      ensures r == Selected(functions, functionMap)
    {
      r := [];
      var i := 0;
      while i < |functions|
        invariant 0 <= i <= |functions|
        invariant r == Selected(functions[..i], functionMap)
      {
        var t := functions[i];
        SelectedAppend(functions[..i], t, functionMap);
        assert functions[..i + 1] == functions[..i] + [t];
        if t.name !in functionMap {
          r := r + [Wrap(t)];
        }
        i := i + 1;
      }
      assert functions[..i] == functions;
    }

    /** `generate_api_reply(messages, sender)`: without messages, replies to
        what it has recorded from the sender. */
    method GenerateApiReply(messages: Option<seq<Message>>, sender: Option<Peer>,
                            exchange: Exchange, execute: seq<Message> -> Json)
      returns (r: Result<(bool, Json)>)
      modifies this, inner
      ensures oaiMessages == RecordedAfter(messages, old(oaiMessages), sender)
      ensures r == ApiReply(Conversation(messages, old(oaiMessages), sender), exchange, execute)
      ensures inner.assistantTools == old(inner.assistantTools) && inner.proxyTools == old(inner.proxyTools)
      ensures var conversation := Conversation(messages, old(oaiMessages), sender);
        && (LastContent(conversation).Err? ==>
              inner.assistantChat == History(conversation) && inner.proxyChat == [])
        && (LastContent(conversation).Ok? ==>
              (inner.assistantChat, inner.proxyChat)
                == exchange(History(conversation), LastContent(conversation).value))
      ensures initCalls == old(initCalls)
    {
      var conversation := Conversation(messages, oaiMessages, sender);
      oaiMessages := RecordedAfter(messages, oaiMessages, sender);
      r := inner.GenerateApiReply(conversation, exchange, execute);
    }
  }

  /** `AutogenAgent(name, toolsets, system_message, ...)`: settles the system
      message and description, builds the agent, and registers its toolsets
      when it has a model configuration. */
  method NewAutogenAgent(name: string, toolsets: seq<string>, systemMessage: Option<string>,
                         functionMap: set<string>, llmConfig: LlmConfig, description: Option<string>,
                         registry: Registry)
    returns (r: Result<AutogenAgent>)
    ensures SystemMessage(registry.toolsets, toolsets, systemMessage).Err? ==>
      r == Err(SystemMessage(registry.toolsets, toolsets, systemMessage).error)
    ensures r.Ok? ==>
      && fresh(r.value) && fresh(r.value.inner)
      && r.value.name == name
      && r.value.systemMessage == SystemMessage(registry.toolsets, toolsets, systemMessage).value
      && r.value.description == Description(description)
      && r.value.functionMap == functionMap && r.value.llmConfig == llmConfig
      && r.value.oaiMessages == map[]
      && r.value.inner.assistantChat == [] && r.value.inner.proxyChat == []
    ensures SystemMessage(registry.toolsets, toolsets, systemMessage).Ok? && !RegistersTools(llmConfig) ==>
      r.Ok? && r.value.initCalls == [] && r.value.inner.assistantTools == [] && r.value.inner.proxyTools == []
    ensures SystemMessage(registry.toolsets, toolsets, systemMessage).Ok? && RegistersTools(llmConfig) ==>
      var spec := RegisterAll(registry.toolsets, toolsets, functionMap);
      && (r.Ok? <==> spec.outcome.Pass?)
      && (r.Err? ==> r.error == spec.outcome.error)
      && (r.Ok? ==> r.value.initCalls == spec.hooks && r.value.inner.assistantTools == spec.tools
                    && r.value.inner.proxyTools == spec.tools)
  {
    var message :- SystemMessage(registry.toolsets, toolsets, systemMessage);
    var agent := new AutogenAgent(name, message, Description(description), functionMap, llmConfig);
    if RegistersTools(llmConfig) {
      var registered := agent.RegisterToolsets(toolsets, registry);
      if registered.Fail? {
        return Err(registered.error);
      }
    }
    return Ok(agent);
  }
}
