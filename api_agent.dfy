/** The front end's API-style agent: it keeps the tools it was given,
    registers them with its inner pair when it has a model configuration,
    and answers through the inner pair. The weather agent is one of these
    built over three weather tools. */
module ApiAgents {
  import opened Outcomes
  import opened JsonValue
  import opened Toolsets
  import opened InnerChat
  import opened AutogenAgents

  /** The tools as registered: each passed as it is. */
  function Directly(tools: seq<Tool>): (r: seq<Registration>)
    ensures |r| == |tools|
    ensures forall i :: 0 <= i < |tools| ==> r[i].Direct? && r[i].tool == tools[i]
  {
    if tools == [] then [] else [Direct(tools[0])] + Directly(tools[1..])
  }

  /** Every tool passes the docstring assertion. */
  predicate AllDocumented(tools: seq<Tool>) {
    forall i :: 0 <= i < |tools| ==> Documented(tools[i])
  }

  /** Registration of the tools as given gets through them all exactly when
      every one has a docstring; otherwise it stops at the first that has
      none. */
  lemma DirectRegistrationStopsAtFirstUndocumented(tools: seq<Tool>)
    ensures DocumentedPrefix(Directly(tools)) == |tools| <==> AllDocumented(tools)
    ensures DocumentedPrefix(Directly(tools)) < |tools| ==>
      var n := DocumentedPrefix(Directly(tools));
      !Documented(tools[n]) && forall i :: 0 <= i < n ==> Documented(tools[i])
  {
  }

  class ApiAgent {
    const name: string
    /** The tool list, stored as given. */
    const tools: seq<Tool>
    const systemMessage: Option<string>
    const llmConfig: LlmConfig
    const inner: InnerPair
    /** The messages recorded per sender. */
    var oaiMessages: map<Option<Peer>, seq<Message>>

    constructor(name: string, tools: seq<Tool>, systemMessage: Option<string>, llmConfig: LlmConfig)
      ensures this.name == name && this.tools == tools
      ensures this.systemMessage == systemMessage && this.llmConfig == llmConfig
      ensures fresh(inner) && inner.assistantTools == [] && inner.proxyTools == []
      ensures inner.assistantChat == [] && inner.proxyChat == []
      ensures oaiMessages == map[]
    {
      this.name := name;
      this.tools := tools;
      this.systemMessage := systemMessage;
      this.llmConfig := llmConfig;
      this.inner := new InnerPair();
      oaiMessages := map[];
    }

    /** `_register_functions()`: the agent's tools, in order, until the first
        without a docstring. */
    method RegisterFunctions() returns (r: Outcome)
      modifies inner
      ensures var n := DocumentedPrefix(Directly(tools));
        && inner.assistantTools == old(inner.assistantTools) + Directly(tools)[..n]
        && inner.proxyTools == old(inner.proxyTools) + Directly(tools)[..n]
        && (r.Pass? <==> AllDocumented(tools))
        && (r.Fail? ==> r.error == MissingDocstring(tools[n]))
      ensures inner.assistantChat == old(inner.assistantChat) && inner.proxyChat == old(inner.proxyChat)
    {
      DirectRegistrationStopsAtFirstUndocumented(tools);
      r := inner.RegisterFunctions(Directly(tools));
    }

    /** `generate_api_reply(messages, sender)`: without messages, replies to
        what it has recorded from the sender. */
    method GenerateApiReply(messages: Option<seq<Message>>, sender: Option<Peer>,
                            exchange: Exchange, execute: seq<Message> -> Json)
      returns (r: Result<(bool, Json)>)
      modifies this, inner
      ensures oaiMessages == RecordedAfter(messages, old(oaiMessages), sender)
      ensures r == ApiReply(Conversation(messages, old(oaiMessages), sender), exchange, execute)
      ensures inner.assistantTools == old(inner.assistantTools) && inner.proxyTools == old(inner.proxyTools)
      ensures var conversation := Conversation(messages, old(oaiMessages), sender);
        && (LastContent(conversation).Err? ==>
              inner.assistantChat == History(conversation) && inner.proxyChat == [])
        && (LastContent(conversation).Ok? ==>
              (inner.assistantChat, inner.proxyChat)
                == exchange(History(conversation), LastContent(conversation).value))
    {
      var conversation := Conversation(messages, oaiMessages, sender);
      oaiMessages := RecordedAfter(messages, oaiMessages, sender);
      r := inner.GenerateApiReply(conversation, exchange, execute);
    }
  }

  /** `ApiAgent(name, tools, system_message, llm_config=...)`: builds the
      agent and registers its tools when it has a model configuration; a
      tool without a docstring makes construction fail. */
  method NewApiAgent(name: string, tools: seq<Tool>, systemMessage: Option<string>, llmConfig: LlmConfig)
    returns (r: Result<ApiAgent>)
    ensures r.Ok? <==> !RegistersTools(llmConfig) || AllDocumented(tools)
    ensures r.Err? ==> r.error == MissingDocstring(tools[DocumentedPrefix(Directly(tools))])
    ensures r.Ok? ==>
      && fresh(r.value) && fresh(r.value.inner)
      && r.value.name == name && r.value.tools == tools
      && r.value.systemMessage == systemMessage && r.value.llmConfig == llmConfig
      && r.value.oaiMessages == map[]
      && r.value.inner.assistantTools == (if RegistersTools(llmConfig) then Directly(tools) else [])
      && r.value.inner.proxyTools == r.value.inner.assistantTools
      && r.value.inner.assistantChat == [] && r.value.inner.proxyChat == []
  {
    var agent := new ApiAgent(name, tools, systemMessage, llmConfig);
    if RegistersTools(llmConfig) {
      var registered := agent.RegisterFunctions();
      if registered.Fail? {
        return Err(registered.error);
      }
      assert Directly(tools)[..|tools|] == Directly(tools);
    }
    return Ok(agent);
  }

  /** The weather agent's three tools, each taking the location. */
  const WEATHER_TOOLS: seq<Tool> := [
    Tool("get_current_weather", Some("Get the current weather for a location."), ["location"]),
    Tool("get_hourly_forecast", Some("Get the hourly forecast for a location."), ["location"]),
    Tool("get_daily_forecast", Some("Get the daily forecast for a location."), ["location"])
  ]

  /** `WeatherAgent(name, provider, system_message, llm_config=...)`: an API
      agent over the weather tools, passing its system message on unchanged
      (None when the caller leaves it out); its tools always pass the
      docstring assertion, so construction never fails. The provider the
      tools call is not modelled: calling a tool happens inside `execute`. */
  method NewWeatherAgent(name: string, systemMessage: Option<string>, llmConfig: LlmConfig) returns (agent: ApiAgent)
    ensures fresh(agent) && fresh(agent.inner)
    ensures agent.name == name && agent.tools == WEATHER_TOOLS
    ensures agent.systemMessage == systemMessage && agent.llmConfig == llmConfig
    ensures agent.oaiMessages == map[]
    ensures agent.inner.assistantTools == (if RegistersTools(llmConfig) then Directly(WEATHER_TOOLS) else [])
    ensures agent.inner.proxyTools == agent.inner.assistantTools
    ensures agent.inner.assistantChat == [] && agent.inner.proxyChat == []
  {
    assert AllDocumented(WEATHER_TOOLS) by {
      assert forall i :: 0 <= i < 3 ==> WEATHER_TOOLS[i].doc.Some? && WEATHER_TOOLS[i].doc.value != [];
    }
    var r := NewApiAgent(name, WEATHER_TOOLS, systemMessage, llmConfig);
    agent := r.value;
  }
}
