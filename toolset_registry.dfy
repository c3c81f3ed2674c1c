/** Toolsets and the process-wide registry of them: registration appends,
    lookup by name returns the first registered toolset of that name. */
module Toolsets {
  import opened Outcomes

  /** A tool function as the agents see it: its name, its docstring (None when
      it has none) and the names of its parameters, in order. */
  datatype Tool = Tool(name: string, doc: Option<string>, params: seq<string>)

  /** A toolset's initialisation hook, identified by the function's name. */
  datatype Hook = Hook(name: string)

  /** A toolset; built by its constructor, which stores each argument in the
      field of the same name. */
  datatype Toolset = Toolset(
    name: string,
    description: string,
    agentDescription: string,
    agentSystemPrompt: string,
    preferredLlm: string,
    functions: seq<Tool>,
    init: Option<Hook>)

  function NotFound(name: string): Error {
    ValueError("Toolset " + name + " not found")
  }

  /** `find(name)` over a list of toolsets: the first toolset of that name,
      or not-found when none has it. */
  function Lookup(toolsets: seq<Toolset>, name: string): (r: Result<Toolset>)
    ensures r.Ok? <==> exists i :: 0 <= i < |toolsets| && toolsets[i].name == name
    ensures r.Ok? ==> exists i :: 0 <= i < |toolsets| && toolsets[i] == r.value && r.value.name == name
                                 && forall k :: 0 <= k < i ==> toolsets[k].name != name
    ensures r.Err? ==> r.error == NotFound(name)
  {
    if toolsets == [] then Err(NotFound(name))
    else if toolsets[0].name == name then Ok(toolsets[0])
    else
      var rest := Lookup(toolsets[1..], name);
      assert forall i :: 1 <= i < |toolsets| ==> toolsets[i] == toolsets[1..][i - 1];
      assert rest.Ok? ==> exists i :: 1 <= i < |toolsets| && toolsets[i] == rest.value
                                      && forall k :: 0 <= k < i ==> toolsets[k].name != name by {
        if rest.Ok? {
          var j :| 0 <= j < |toolsets| - 1 && toolsets[1..][j] == rest.value
                   && forall k :: 0 <= k < j ==> toolsets[1..][k].name != name;
          assert forall k :: 1 <= k < j + 1 ==> toolsets[k] == toolsets[1..][k - 1];
        }
      }
      rest
  }

  /** Looking a name up after one more registration: an earlier toolset of
      that name still wins; otherwise the new one answers if its name matches. */
  lemma {:induction false} LookupAfterRegister(toolsets: seq<Toolset>, t: Toolset, name: string)
    ensures Lookup(toolsets + [t], name) ==
      if Lookup(toolsets, name).Ok? then Lookup(toolsets, name)
      else if t.name == name then Ok(t)
      else Err(NotFound(name))
  {
    if toolsets == [] {
      assert toolsets + [t] == [t];
      assert [t][1..] == [];
    } else {
      assert (toolsets + [t])[1..] == toolsets[1..] + [t];
      LookupAfterRegister(toolsets[1..], t, name);
    }
  }

  /** Two toolsets registered under the same name, with none before them:
      lookup returns the earlier one. */
  lemma DuplicateNameFindsEarlier(toolsets: seq<Toolset>, first: Toolset, second: Toolset)
    requires Lookup(toolsets, first.name).Err?
    requires second.name == first.name
    ensures Lookup(toolsets + [first] + [second], first.name) == Ok(first)
  {
    LookupAfterRegister(toolsets, first, first.name);
    LookupAfterRegister(toolsets + [first], second, first.name);
  }

  /** The module's `TOOLSETS` list with `register` and `find`. */
  class Registry {
    var toolsets: seq<Toolset>

    constructor()
      ensures toolsets == []
    {
      toolsets := [];
    }

    /** `register(toolset)`: appends, leaving earlier entries as they were. */
    method Register(toolset: Toolset)
      modifies this
      ensures toolsets == old(toolsets) + [toolset]
    {
      toolsets := toolsets + [toolset];
    }

    /** `find(name)`: scans the registry in registration order; it changes
        nothing. */
    method Find(name: string) returns (r: Result<Toolset>)
      ensures r == Lookup(toolsets, name)
    {
      var i := 0;
      while i < |toolsets|
        invariant 0 <= i <= |toolsets|
        invariant Lookup(toolsets[i..], name) == Lookup(toolsets, name)
      {
        if toolsets[i].name == name {
          return Ok(toolsets[i]);
        }
        assert toolsets[i..][1..] == toolsets[i + 1..];
        i := i + 1;
      }
      return Err(NotFound(name));
    }
  }
}
