/** The pair of inner AutoGen agents behind both API-style agents: an
    assistant that decides and a user proxy that plays the API and runs the
    tools. What the repository decides is modelled here: which tools each
    inner agent learns about and the docstring each must have, how the
    assistant is primed, what is sent, and which reply is passed back. The
    inner agents' own behaviour is an input. */
module InnerChat {
  import opened Outcomes
  import opened JsonValue
  import opened Toolsets

  /** A chat message, as AutoGen keeps it: a dictionary. */
  type Message = map<string, Json>

  /** An AutoGen agent that may send messages to the outer agent. */
  datatype Peer = Peer(name: string)

  /** A tool handed to the inner agents: as it is, or wrapped so the outer
      agent is passed as its first argument. */
  datatype Registration = Direct(tool: Tool) | BoundToAgent(tool: Tool)

  /** The assertion every registered tool must pass: a non-empty docstring. */
  predicate Documented(t: Tool) {
    t.doc.Some? && t.doc.value != []
  }

  function MissingDocstring(t: Tool): Error {
    AssertionError("Tool " + t.name + " must have a docstring.")
  }

  /** How many tools, from the front, pass the docstring assertion before the
      first that fails. */
  function DocumentedPrefix(tools: seq<Registration>): (n: nat)
    ensures n <= |tools|
    ensures forall i :: 0 <= i < n ==> Documented(tools[i].tool)
    ensures n < |tools| ==> !Documented(tools[n].tool)
  {
    if tools == [] || !Documented(tools[0].tool) then 0
    else 1 + DocumentedPrefix(tools[1..])
  }

  /** The inner assistant's and proxy's state as the outer agent affects it. */
  class InnerPair {
    /** The tools offered to the assistant's model, with their docstrings. */
    var assistantTools: seq<Registration>
    /** The tools the proxy can execute. */
    var proxyTools: seq<Registration>
    /** The assistant's record of its chat with the proxy. */
    var assistantChat: seq<Message>
    /** The proxy's record of its chat with the assistant. */
    var proxyChat: seq<Message>

    constructor()
      ensures assistantTools == [] && proxyTools == [] && assistantChat == [] && proxyChat == []
    {
      assistantTools := [];
      proxyTools := [];
      assistantChat := [];
      proxyChat := [];
    }

    /** `_register_functions(tools)`: registers each tool with both inner
        agents in turn, and stops at the first without a docstring, the tools
        before it staying registered. */
    method RegisterFunctions(tools: seq<Registration>) returns (r: Outcome)
      modifies this
      ensures var n := DocumentedPrefix(tools);
        && assistantTools == old(assistantTools) + tools[..n]
        && proxyTools == old(proxyTools) + tools[..n]
        && (r.Pass? <==> n == |tools|)
        && (r.Fail? ==> r.error == MissingDocstring(tools[n].tool))
      ensures assistantChat == old(assistantChat) && proxyChat == old(proxyChat)
    {
      var i := 0;
      while i < |tools|
        invariant 0 <= i <= DocumentedPrefix(tools)
        invariant assistantTools == old(assistantTools) + tools[..i]
        invariant proxyTools == old(proxyTools) + tools[..i]
        invariant assistantChat == old(assistantChat) && proxyChat == old(proxyChat)
      {
        if !Documented(tools[i].tool) {
          return Fail(MissingDocstring(tools[i].tool));
        }
        assert tools[..i + 1] == tools[..i] + [tools[i]];
        assistantTools := assistantTools + [tools[i]];
        proxyTools := proxyTools + [tools[i]];
        i := i + 1;
      }
      assert tools[..i] == tools;
      return Pass;
    }

    /** `generate_api_reply` once the messages are known: clears both records,
        primes the assistant with every message but the last, sends the last
        message's content, and picks the reply. `exchange` stands for the send
        and the assistant's answer: from the primed record and the content it
        gives both records afterwards; `execute` stands for the proxy's own
        reply to its record. */
    method GenerateApiReply(messages: seq<Message>, exchange: Exchange, execute: seq<Message> -> Json)
      returns (r: Result<(bool, Json)>)
      modifies this
      ensures r == ApiReply(messages, exchange, execute)
      ensures LastContent(messages).Err? ==> assistantChat == History(messages) && proxyChat == []
      ensures LastContent(messages).Ok? ==>
        (assistantChat, proxyChat) == exchange(History(messages), LastContent(messages).value)
      ensures assistantTools == old(assistantTools) && proxyTools == old(proxyTools)
    {
      proxyChat := [];
      assistantChat := [];
      var history := if messages == [] then [] else messages[..|messages| - 1];
      var i := 0;
      while i < |history|
        invariant 0 <= i <= |history|
        invariant assistantChat == history[..i]
        invariant proxyChat == []
        invariant assistantTools == old(assistantTools) && proxyTools == old(proxyTools)
      {
        assistantChat := assistantChat + [history[i]];
        assert history[..i + 1] == history[..i] + [history[i]];
        i := i + 1;
      }
      assert history[..i] == history;
      var content :- LastContent(messages);
      assistantChat, proxyChat := exchange(history, content).0, exchange(history, content).1;
      if proxyChat == [] {
        return Err(IndexError);
      }
      var agentReply := proxyChat[|proxyChat| - 1];
      var proxyReply := execute(proxyChat);
      r := ChooseReply(agentReply, proxyReply);
    }
  }

  /** The send: from the assistant's primed record and the content sent, the
      assistant's and the proxy's records afterwards. */
  type Exchange = (seq<Message>, Json) -> (seq<Message>, seq<Message>)

  /** `messages[0 : len(messages) - 1]`: every message but the last, and none
      of an empty list. */
  function History(messages: seq<Message>): (h: seq<Message>)
    ensures |h| == if messages == [] then 0 else |messages| - 1
    ensures forall i :: 0 <= i < |h| ==> h[i] == messages[i]
  {
    if messages == [] then [] else messages[..|messages| - 1]
  }

  /** The history and the last message make up the whole conversation. */
  lemma HistoryThenLast(messages: seq<Message>)
    requires messages != []
    ensures History(messages) + [messages[|messages| - 1]] == messages
  {
  }

  /** `messages[-1]["content"]`: an empty list has no last message, and the
      last message may lack the key. */
  function LastContent(messages: seq<Message>): (r: Result<Json>)
    ensures messages == [] ==> r == Err(IndexError)
    ensures messages != [] ==> r == Field(JObj(messages[|messages| - 1]), "content")
  {
    if messages == [] then Err(IndexError) else Field(JObj(messages[|messages| - 1]), "content")
  }

  /** The reply passed back: the assistant's content when the proxy gave its
      default reply "", None when the proxy gave None, else the proxy reply's
      content, which only a dictionary has. The first element, "final", is
      always true. */
  function ChooseReply(agentReply: Message, proxyReply: Json): (r: Result<(bool, Json)>)
    ensures r.Ok? ==> r.value.0
    ensures proxyReply == JStr("") ==>
      (r.Ok? <==> "content" in agentReply) && (r.Ok? ==> r.value.1 == agentReply["content"])
    ensures proxyReply == JNull ==> r == Ok((true, JNull))
    ensures proxyReply != JStr("") && proxyReply != JNull ==>
      (r.Ok? <==> proxyReply.JObj? && "content" in proxyReply.fields)
      && (r.Ok? ==> r.value.1 == proxyReply.fields["content"])
    ensures r.Err? ==> r.error == KeyError("content") || r.error == TypeError
  {
    if proxyReply == JStr("") then
      var content :- Field(JObj(agentReply), "content");
      Ok((true, content))
    else if proxyReply == JNull then Ok((true, JNull))
    else
      var content :- Field(proxyReply, "content");
      Ok((true, content))
  }

  /** The outcome of `generate_api_reply` for known messages. */
  function ApiReply(messages: seq<Message>, exchange: Exchange, execute: seq<Message> -> Json)
    : (r: Result<(bool, Json)>)
    ensures LastContent(messages).Err? ==> r == Err(LastContent(messages).error)
    ensures LastContent(messages).Ok? ==>
      var proxyChat := exchange(History(messages), LastContent(messages).value).1;
      r == if proxyChat == [] then Err(IndexError)
           else ChooseReply(proxyChat[|proxyChat| - 1], execute(proxyChat))
  {
    var content :- LastContent(messages);
    var proxyChat := exchange(History(messages), content).1;
    if proxyChat == [] then Err(IndexError)
    else ChooseReply(proxyChat[|proxyChat| - 1], execute(proxyChat))
  }

  /** The messages replied to: those given, or else what the outer agent has
      recorded from the sender, nothing when it has no record. */
  function Conversation(messages: Option<seq<Message>>, recorded: map<Option<Peer>, seq<Message>>,
                        sender: Option<Peer>): (r: seq<Message>)
    ensures messages.Some? ==> r == messages.value
    ensures messages.None? && sender in recorded ==> r == recorded[sender]
    ensures messages.None? && sender !in recorded ==> r == []
  {
    match messages
    case Some(m) => m
    case None => if sender in recorded then recorded[sender] else []
  }

  /** The outer agent's records after the lookup: reading a sender it has no
      record of adds an empty one. */
  function RecordedAfter(messages: Option<seq<Message>>, recorded: map<Option<Peer>, seq<Message>>,
                         sender: Option<Peer>): (r: map<Option<Peer>, seq<Message>>)
    ensures messages.Some? || sender in recorded ==> r == recorded
    ensures messages.None? && sender !in recorded ==> r == recorded[sender := []]
  {
    if messages.None? && sender !in recorded then recorded[sender := []] else recorded
  }
}
