/** The agent builder that also hands out capabilities: the model is shown
    the capabilities' class names, its comma-separated reply picks some of
    them, the pick is stored in the agent's configuration, and built agents
    are then visited to attach what was picked. */
module CapabilityBuilder {
  import opened Outcomes
  import opened Text

  /** A capability object, known by the name of its class. */
  datatype Capability = Capability(className: string)

  function ClassNames(caps: seq<Capability>): (r: seq<string>)
    ensures |r| == |caps|
    ensures forall i :: 0 <= i < |caps| ==> r[i] == caps[i].className
  {
    if caps == [] then [] else [caps[0].className] + ClassNames(caps[1..])
  }

  /** The capability list shown to the model: the class names, in order,
      separated by ", ". */
  function CapabilitiesText(caps: seq<Capability>): string {
    Join(ClassNames(caps), ", ")
  }

  /** The names read from the model's reply: the reply split at every ','
      and each piece stripped. */
  function ReplyTokens(reply: string): (r: seq<string>)
    ensures |r| == |Split(reply, ',')| >= 1
    ensures forall i :: 0 <= i < |r| ==> r[i] == Strip(Split(reply, ',')[i])
    ensures forall i :: 0 <= i < |r| ==> IsStripped(r[i])
  {
    var pieces := Split(reply, ',');
    seq(|pieces|, i requires 0 <= i < |pieces| => Strip(pieces[i]))
  }

  /** The capabilities whose class name is among the tokens, in the order of
      the capability list; tokens naming no capability are dropped. */
  function Select(caps: seq<Capability>, tokens: seq<string>): (r: seq<Capability>)
    ensures |r| <= |caps|
    ensures forall c :: c in r <==> c in caps && c.className in tokens
  {
    if caps == [] then []
    else
      var rest := Select(caps[1..], tokens);
      assert forall c :: c in caps <==> c == caps[0] || c in caps[1..];
      if caps[0].className in tokens then [caps[0]] + rest else rest
  }

  /** Selection keeps the list's order: selecting from a list with one more
      capability at the end selects what it did before, then that capability
      when it is named. */
  lemma {:induction false} SelectAppend(caps: seq<Capability>, c: Capability, tokens: seq<string>)
    ensures Select(caps + [c], tokens) == Select(caps, tokens) + (if c.className in tokens then [c] else [])
  {
    if caps == [] {
      assert [c][1..] == [];
    } else {
      assert (caps + [c])[1..] == caps[1..] + [c];
      SelectAppend(caps[1..], c, tokens);
    }
  }

  /** Naming every capability selects the whole list, in its order. */
  lemma {:induction false} SelectAllNamed(caps: seq<Capability>, tokens: seq<string>)
    requires forall i :: 0 <= i < |caps| ==> caps[i].className in tokens
    ensures Select(caps, tokens) == caps
  {
    if caps != [] {
      SelectAllNamed(caps[1..], tokens);
    }
  }

  /** The pieces of the shown list between its commas: the first class
      name, then each later one behind the space that followed its comma. */
  lemma ShownListPieces(names: seq<string>)
    requires names != []
    requires forall i :: 0 <= i < |names| ==> ',' !in names[i]
    ensures |Split(Join(names, ", "), ',')| == |names|
    ensures Split(Join(names, ", "), ',')[0] == names[0]
    ensures forall i :: 1 <= i < |names| ==> Split(Join(names, ", "), ',')[i] == " " + names[i]
  {
    assert ", " == [','] + " ";
    SplitJoined(names, ',', " ");
  }

  /** Stripping a piece of the shown list gives back its class name. */
  lemma ShownListPieceStrips(names: seq<string>, i: nat)
    requires i < |names|
    requires forall k :: 0 <= k < |names| ==> ',' !in names[k] && IsStripped(names[k])
    ensures |Split(Join(names, ", "), ',')| == |names|
    ensures Strip(Split(Join(names, ", "), ',')[i]) == names[i]
  {
    ShownListPieces(names);
    if i == 0 {
      assert names[0] == [] + names[0];
      StripAfterSpace([], names[0]);
    } else {
      StripAfterSpace(" ", names[i]);
    }
  }

  /** Reading back the shown list gives the class names, one token per
      capability, provided none holds a comma or has white space at either
      end. */
  lemma ShownListTokens(caps: seq<Capability>)
    requires caps != []
    requires forall i :: 0 <= i < |caps| ==> ',' !in caps[i].className && IsStripped(caps[i].className)
    ensures |ReplyTokens(CapabilitiesText(caps))| == |caps|
    ensures forall i :: 0 <= i < |caps| ==> ReplyTokens(CapabilitiesText(caps))[i] == caps[i].className
  {
    var names := ClassNames(caps);
    ShownListPieceStrips(names, 0);
    forall i | 0 <= i < |caps|
      ensures ReplyTokens(CapabilitiesText(caps))[i] == caps[i].className
    {
      ShownListPieceStrips(names, i);
    }
  }

  /** A reply that repeats the capability list exactly as it was shown picks
      every capability, provided no class name holds a comma or has white
      space at either end. */
  lemma ShownListSelectsAll(caps: seq<Capability>)
    requires forall i :: 0 <= i < |caps| ==> ',' !in caps[i].className && IsStripped(caps[i].className)
    ensures Select(caps, ReplyTokens(CapabilitiesText(caps))) == caps
  {
    var tokens := ReplyTokens(CapabilitiesText(caps));
    assert forall i :: 0 <= i < |caps| ==> caps[i].className in tokens by {
      if caps != [] {
        ShownListTokens(caps);
        forall i | 0 <= i < |caps|
          ensures caps[i].className in tokens
        {
          assert tokens[i] == caps[i].className;
        }
      }
    }
    SelectAllNamed(caps, tokens);
  }

  /** `_build_agent_capabilities(config)` with the model's reply given: the
      selection the reply names. */
  function BuildAgentCapabilities(caps: seq<Capability>, reply: string): (r: seq<Capability>)
    ensures forall c :: c in r <==> c in caps && c.className in ReplyTokens(reply)
  {
    Select(caps, ReplyTokens(reply))
  }

  /** The configuration of one agent to build; only its name and
      capabilities entries are modelled, each None while the key is absent. */
  class AgentConfig {
    var name: Option<string>
    var capabilities: Option<seq<Capability>>

    constructor(name: Option<string>)
      ensures this.name == name && capabilities == None
    {
      this.name := name;
      capabilities := None;
    }
  }

  /** What the build step does with one agent's capabilities entry: an
      absent key raises KeyError; an empty list is skipped; for any other
      list, the lookup of its first entry compares class names with the
      capability objects stored there, finds nothing and raises
      StopIteration, so the `is None` guard after it is never reached. */
  function AttachOne(entry: Option<seq<Capability>>): (r: Outcome)
    ensures r.Pass? <==> entry == Some([])
    ensures entry.None? ==> r == Fail(KeyError("capabilities"))
    ensures entry.Some? && entry.value != [] ==> r == Fail(StopIteration)
  {
    match entry
    case None => Fail(KeyError("capabilities"))
    case Some(caps) => if caps == [] then Pass else Fail(StopIteration)
  }

  /** The build step over the entries in order: the first entry that is not
      an empty list decides the failure. */
  function AttachAll(entries: seq<Option<seq<Capability>>>): (r: Outcome)
    ensures r.Pass? <==> forall i :: 0 <= i < |entries| ==> entries[i] == Some([])
    ensures r.Fail? ==>
      exists i :: 0 <= i < |entries| && r == AttachOne(entries[i]) && forall k :: 0 <= k < i ==> entries[k] == Some([])
  {
    if entries == [] then Pass
    else if AttachOne(entries[0]).Fail? then AttachOne(entries[0])
    else
      var rest := AttachAll(entries[1..]);
      assert forall i :: 1 <= i < |entries| ==> entries[i] == entries[1..][i - 1];
      assert rest.Fail? ==>
        exists i :: 1 <= i < |entries| && rest == AttachOne(entries[i]) && forall k :: 0 <= k < i ==> entries[k] == Some([])
      by {
        if rest.Fail? {
          var j :| 0 <= j < |entries| - 1 && rest == AttachOne(entries[1..][j])
            && forall k :: 0 <= k < j ==> entries[1..][k] == Some([]);
          assert forall k :: 1 <= k < j + 1 ==> entries[k] == entries[1..][k - 1];
        }
      }
      rest
  }

  /** The capabilities entries of configurations, in order. */
  function Entries(configs: seq<AgentConfig>): (r: seq<Option<seq<Capability>>>)
    reads configs
    ensures |r| == |configs|
    ensures forall i :: 0 <= i < |configs| ==> r[i] == configs[i].capabilities
  {
    if configs == [] then [] else [configs[0].capabilities] + Entries(configs[1..])
  }

  function Min(a: nat, b: nat): nat {
    if a <= b then a else b
  }

  class CapabilitiesBuilder {
    const capabilities: seq<Capability>

    /** `AgentWithCapabilitiesBuilder(capabilities)`: None or an empty list
        become the empty list. */
    constructor(capabilities: Option<seq<Capability>>)
      ensures this.capabilities == if capabilities.Some? then capabilities.value else []
    {
      this.capabilities := if capabilities.Some? && capabilities.value != [] then capabilities.value else [];
    }

    /** `_agent_expand_config(config)`: stores the selection the reply names
        under the configuration's capabilities key. Reading the name for the
        progress line raises KeyError when it is absent, and filling in the
        prompt raises TypeError when the configuration already has a
        capabilities key, since `format` then gets that keyword twice; either
        way nothing is stored. */
    method AgentExpandConfig(config: AgentConfig, reply: string) returns (r: Outcome)
      modifies config
      ensures config.name == old(config.name)
      ensures old(config.name).None? ==> r == Fail(KeyError("name")) && config.capabilities == old(config.capabilities)
      ensures old(config.name).Some? && old(config.capabilities).Some? ==>
        r == Fail(TypeError) && config.capabilities == old(config.capabilities)
      ensures old(config.name).Some? && old(config.capabilities).None? ==>
        r == Pass && config.capabilities == Some(BuildAgentCapabilities(capabilities, reply))
      ensures r.Pass? ==> forall c :: c in config.capabilities.value ==> c in capabilities && c.className in ReplyTokens(reply)
    {
      if config.name.None? {
        return Fail(KeyError("name"));
      }
      if config.capabilities.Some? {
        return Fail(TypeError);
      }
      config.capabilities := Some(BuildAgentCapabilities(capabilities, reply));
      r := Pass;
    }

    /** The loop of `_build_agents` over the built agents paired with their
        configurations (as many pairs as the shorter list has): it changes
        nothing, and succeeds exactly when every paired configuration has an
        empty capability list. */
    method BuildAgents<A>(agents: seq<A>, configs: seq<AgentConfig>) returns (r: Outcome)
      ensures r == AttachAll(Entries(configs)[..Min(|agents|, |configs|)])
      ensures r.Pass? <==> forall i :: 0 <= i < Min(|agents|, |configs|) ==> configs[i].capabilities == Some([])
    {
      var pairs := Min(|agents|, |configs|);
      ghost var entries := Entries(configs)[..pairs];
      var i := 0;
      while i < pairs
        invariant 0 <= i <= pairs
        invariant AttachAll(entries[i..]) == AttachAll(entries)
      {
        var entry := configs[i].capabilities;
        assert entries[i..][0] == entry;
        if entry.None? {
          return Fail(KeyError("capabilities"));
        }
        if entry.value != [] {
          return Fail(StopIteration);
        }
        assert entries[i..][1..] == entries[i + 1..];
        i := i + 1;
      }
      return Pass;
    }
  }
}
