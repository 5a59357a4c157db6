/**
 * The registry of provider tools the chat can offer the model: a fixed array
 * whose `enabled` flags are switched in place.
 */
module ToolConfig {
  import opened Wrappers

  /** What a tool's `getTool` asks the provider SDK to build. */
  datatype ToolKind = WebSearch(searchContextSize: string) | CodeInterpreter

  datatype Tool = Tool(id: string, name: string, description: string, kind: ToolKind, enabled: bool)

  /** The tools handed to the model, keyed by tool id. */
  type ToolSet = map<string, ToolKind>

  const WebSearchDescription: string :=
    "Access the latest information using web search. Useful for current events, news, and real-time information."
  const CodeExecutionDescription: string :=
    "Generate and execute code snippets in various programming languages. Useful for calculations, data processing, and automating tasks."

  /** The registry as the module defines it: web search and code execution, both off. */
  function InitialTools(): (r: seq<Tool>)
    ensures |r| == 2 && r[0].id == "web_search" && r[1].id == "code_execution"
    ensures forall i :: 0 <= i < |r| ==> !r[i].enabled
    ensures DistinctIds(r)
  {
    [ Tool("web_search", "Web Search", WebSearchDescription, WebSearch("high"), false),
      Tool("code_execution", "Code Execution", CodeExecutionDescription, CodeInterpreter, false) ]
  }

  predicate DistinctIds(ts: seq<Tool>) {
    forall i, j :: 0 <= i < j < |ts| ==> ts[i].id != ts[j].id
  }

  /** Two registries that differ at most in their flags. */
  predicate SameTools(ts: seq<Tool>, us: seq<Tool>) {
    |ts| == |us| && forall i :: 0 <= i < |ts| ==> ts[i].(enabled := false) == us[i].(enabled := false)
  }

  function EnabledIds(ts: seq<Tool>): set<string> {
    set t | t in ts && t.enabled :: t.id
  }

  /** `availableTools.find(t => t.id === id)`: the index of the first tool with that id. */
  function Find(ts: seq<Tool>, id: string): (r: Option<nat>)
    ensures r.Some? ==> r.value < |ts| && ts[r.value].id == id && forall j :: 0 <= j < r.value ==> ts[j].id != id
    ensures r.None? ==> forall j :: 0 <= j < |ts| ==> ts[j].id != id
  {
    if ts == [] then None
    else if ts[0].id == id then Some(0)
    else match Find(ts[1..], id) {
      case None => None
      case Some(k) => Some(k + 1)
    }
  }

  /** The registry after `toggleTool(id)`. */
  function Toggled(ts: seq<Tool>, id: string): (r: seq<Tool>)
    ensures |r| == |ts|
    ensures forall i :: 0 <= i < |ts| ==> r[i].id == ts[i].id
  {
    match Find(ts, id) {
      case None => ts
      case Some(k) => ts[k := ts[k].(enabled := !ts[k].enabled)]
    }
  }

  /** The registry after `enableTools(ids)`. */
  function EnabledOnly(ts: seq<Tool>, ids: seq<string>): (r: seq<Tool>)
    ensures |r| == |ts|
    ensures forall i :: 0 <= i < |ts| ==> r[i].id == ts[i].id
  {
    seq(|ts|, i requires 0 <= i < |ts| => ts[i].(enabled := ts[i].id in ids))
  }

  /** The registry after `resetTools()`. */
  function Disabled(ts: seq<Tool>): (r: seq<Tool>)
    ensures |r| == |ts|
    ensures forall t :: t in r ==> !t.enabled
  {
    seq(|ts|, i requires 0 <= i < |ts| => ts[i].(enabled := false))
  }

  /** `filter(t => t.enabled).map(t => t.name)`. */
  function NamesOf(ts: seq<Tool>): (r: seq<string>)
    ensures |r| <= |ts|
    ensures forall n :: n in r <==> exists t :: t in ts && t.enabled && t.name == n
    ensures r == [] <==> forall i :: 0 <= i < |ts| ==> !ts[i].enabled
  {
    if ts == [] then []
    else (if ts[0].enabled then [ts[0].name] else []) + NamesOf(ts[1..])
  }

  // ---------------------------------------------------------------------------
  // Properties of the three updates
  // ---------------------------------------------------------------------------

  /** Find looks only at ids, so flipping flags does not move it. */
  lemma {:induction false} FindIgnoresFlags(ts: seq<Tool>, us: seq<Tool>, id: string)
    requires |ts| == |us| && forall i :: 0 <= i < |ts| ==> ts[i].id == us[i].id
    ensures Find(ts, id) == Find(us, id)
  {
    if ts != [] && ts[0].id != id {
      FindIgnoresFlags(ts[1..], us[1..], id);
    }
  }

  /** Toggling a known id flips that one tool's flag; an unknown id changes nothing. */
  lemma ToggledSpec(ts: seq<Tool>, id: string)
    ensures SameTools(ts, Toggled(ts, id))
    ensures forall i :: 0 <= i < |ts| ==>
              Toggled(ts, id)[i].enabled == (ts[i].enabled != (Find(ts, id) == Some(i)))
    ensures Find(ts, id).None? <==> Toggled(ts, id) == ts
  {
    if Find(ts, id).Some? {
      var k := Find(ts, id).value;
      assert Toggled(ts, id)[k] != ts[k];
    }
  }

  /** Toggling the same id twice restores the registry. */
  lemma ToggleTwice(ts: seq<Tool>, id: string)
    ensures Toggled(Toggled(ts, id), id) == ts
  {
    FindIgnoresFlags(ts, Toggled(ts, id), id);
  }

  /** After `enableTools(ids)` exactly the tools named in `ids` are on; other ids are ignored. */
  lemma EnabledOnlySpec(ts: seq<Tool>, ids: seq<string>)
    ensures SameTools(ts, EnabledOnly(ts, ids))
    ensures forall i :: 0 <= i < |ts| ==> (EnabledOnly(ts, ids)[i].enabled <==> ts[i].id in ids)
    ensures EnabledIds(EnabledOnly(ts, ids)) == (set t | t in ts :: t.id) * (set x | x in ids)
  {
    var r := EnabledOnly(ts, ids);
    forall x | x in (set t | t in ts :: t.id) * (set x | x in ids) ensures x in EnabledIds(r) {
      var i :| 0 <= i < |ts| && ts[i].id == x;
      assert r[i] in r;
    }
  }

  /** `enableTools` does not depend on the flags it overwrites, so a second call changes nothing. */
  lemma EnabledOnlyForgetsFlags(ts: seq<Tool>, us: seq<Tool>, ids: seq<string>)
    requires SameTools(ts, us)
    ensures EnabledOnly(ts, ids) == EnabledOnly(us, ids)
    ensures EnabledOnly(EnabledOnly(ts, ids), ids) == EnabledOnly(ts, ids)
  {
    forall i | 0 <= i < |ts| ensures EnabledOnly(ts, ids)[i] == EnabledOnly(us, ids)[i] {
      assert ts[i].id == ts[i].(enabled := false).id;
      assert us[i].id == us[i].(enabled := false).id;
    }
  }

  /** Resetting is enabling the empty list: every tool is off. */
  lemma DisabledSpec(ts: seq<Tool>)
    ensures Disabled(ts) == EnabledOnly(ts, [])
    ensures EnabledIds(Disabled(ts)) == {}
    ensures NamesOf(Disabled(ts)) == []
  {
    assert forall t :: t in Disabled(ts) ==> !t.enabled;
  }

  /** The enabled names of two registries laid end to end, in registry order. */
  lemma {:induction false} NamesOfAppend(a: seq<Tool>, b: seq<Tool>)
    ensures NamesOf(a + b) == NamesOf(a) + NamesOf(b)
  {
    if a != [] {
      NamesOfAppend(a[1..], b);
      assert (a + b)[1..] == a[1..] + b;
    } else {
      assert a + b == b;
    }
  }

  /** With every tool on, the names come out in registry order. */
  lemma {:induction false} NamesOfAllEnabled(ts: seq<Tool>)
    requires forall i :: 0 <= i < |ts| ==> ts[i].enabled
    ensures NamesOf(ts) == seq(|ts|, i requires 0 <= i < |ts| => ts[i].name)
  {
    if ts != [] {
      NamesOfAllEnabled(ts[1..]);
    }
  }

  // ---------------------------------------------------------------------------
  // The registry itself
  // ---------------------------------------------------------------------------

  class ToolRegistry {
    const tools: array<Tool>

    ghost predicate Valid()
      reads tools
    {
      DistinctIds(tools[..])
    }

    constructor ()
      ensures Valid() && fresh(tools)
      ensures tools[..] == InitialTools()
    {
      tools := new Tool[2] [
        Tool("web_search", "Web Search", WebSearchDescription, WebSearch("high"), false),
        Tool("code_execution", "Code Execution", CodeExecutionDescription, CodeInterpreter, false)
      ];
    }

    /** `toggleTool`: flips the first tool with that id and returns its new flag; false when none has it. */
    method ToggleTool(toolId: string) returns (enabled: bool)
      requires Valid()
      modifies tools
      ensures Valid()
      ensures tools[..] == Toggled(old(tools[..]), toolId)
      ensures enabled == (match Find(old(tools[..]), toolId) {
                            case None => false
                            case Some(k) => !old(tools[k].enabled)
                          })
    {
      var i := 0;
      while i < tools.Length && tools[i].id != toolId
        invariant 0 <= i <= tools.Length
        invariant forall j :: 0 <= j < i ==> tools[j].id != toolId
      {
        i := i + 1;
      }
      if i == tools.Length {
        return false;
      }
      assert Find(tools[..], toolId) == Some(i);
      tools[i] := tools[i].(enabled := !tools[i].enabled);
      enabled := tools[i].enabled;
    }

    /** `enableTools`: each tool ends up on exactly when its id is listed. */
    method EnableTools(toolIds: seq<string>)
      requires Valid()
      modifies tools
      ensures Valid()
      ensures tools[..] == EnabledOnly(old(tools[..]), toolIds)
    {
      for i := 0 to tools.Length
        invariant forall j :: 0 <= j < i ==> tools[j] == old(tools[j]).(enabled := old(tools[j]).id in toolIds)
        invariant forall j :: i <= j < tools.Length ==> tools[j] == old(tools[j])
      {
        tools[i] := tools[i].(enabled := tools[i].id in toolIds);
      }
    }

    /** `resetTools`: every tool off. */
    method ResetTools()
      requires Valid()
      modifies tools
      ensures Valid()
      ensures tools[..] == Disabled(old(tools[..]))
    {
      for i := 0 to tools.Length
        invariant forall j :: 0 <= j < i ==> tools[j] == old(tools[j]).(enabled := false)
        invariant forall j :: i <= j < tools.Length ==> tools[j] == old(tools[j])
      {
        tools[i] := tools[i].(enabled := false);
      }
    }

    /** `getEnabledToolsNames`: the names of the enabled tools, nothing when none is on. */
    function EnabledToolsNames(): (r: seq<string>)
      reads tools
      ensures |r| <= tools.Length
      ensures forall n :: n in r <==> exists i :: 0 <= i < tools.Length && tools[i].enabled && tools[i].name == n
      ensures r == [] <==> forall i :: 0 <= i < tools.Length ==> !tools[i].enabled
    {
      NamesOf(tools[..])
    }

    /**
     * `getEnabledTools`: asks the SDK for each enabled tool in registry order.
     * Nothing when no tool is on, or when the SDK throws for one of them;
     * otherwise the map from each enabled id to its tool.
     */
    method GetEnabledTools(supported: ToolKind -> bool) returns (r: Option<ToolSet>)
      requires Valid()
      ensures r.None? <==>
                (forall i :: 0 <= i < tools.Length ==> !tools[i].enabled)
                || (exists i :: 0 <= i < tools.Length && tools[i].enabled && !supported(tools[i].kind))
      ensures r.Some? ==> r.value.Keys == EnabledIds(tools[..])
      ensures r.Some? ==> forall i :: 0 <= i < tools.Length && tools[i].enabled ==> r.value[tools[i].id] == tools[i].kind
    {
      var m: ToolSet := map[];
      for i := 0 to tools.Length
        invariant m.Keys == EnabledIds(tools[..i])
        invariant forall j :: 0 <= j < i && tools[j].enabled ==> tools[j].id in m && m[tools[j].id] == tools[j].kind
        invariant forall j :: 0 <= j < i && tools[j].enabled ==> supported(tools[j].kind)
      {
        assert tools[..i + 1] == tools[..i] + [tools[i]];
        if tools[i].enabled {
          if !supported(tools[i].kind) {
            return None;
          }
          m := m[tools[i].id := tools[i].kind];
        }
      }
      assert tools[..tools.Length] == tools[..];
      assert forall i :: 0 <= i < tools.Length && tools[i].enabled ==> tools[i].id in m;
      if |m| > 0 {
        r := Some(m);
      } else {
        r := None;
      }
    }
  }
}
