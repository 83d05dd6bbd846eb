/** The name->tool map all three clients build from the tool list with a
    dictionary comprehension keyed by tool name. */
module Registry {
  import opened Messages

  /** The set of names that occur in a tool list. */
  function Names(tools: seq<ToolHandle>): set<string> {
    set t | t in tools :: t.name
  }

  /** The dictionary comprehension: entries are inserted in list order, so a
      later tool overwrites an earlier one with the same name. */
  function ToolByName(tools: seq<ToolHandle>): (m: map<string, ToolHandle>)
    ensures m.Keys == Names(tools)
    ensures forall name | name in m :: m[name] in tools && m[name].name == name
  {
    if tools == [] then map[]
    else
      var init, last := tools[..|tools| - 1], tools[|tools| - 1];
      assert tools == init + [last];
      ToolByName(init)[last.name := last]
  }

  /** Last wins: the entry for a name is the LAST tool in the list that has
      that name. */
  lemma {:induction false} ToolByNameLastWins(tools: seq<ToolHandle>, i: nat)
    requires i < |tools|
    requires forall j | i < j < |tools| :: tools[j].name != tools[i].name
    ensures tools[i].name in ToolByName(tools)
    ensures ToolByName(tools)[tools[i].name] == tools[i]
  {
    var init, last := tools[..|tools| - 1], tools[|tools| - 1];
    if i < |tools| - 1 {
      assert last.name != tools[i].name;
      ToolByNameLastWins(init, i);
    }
  }

  /** So a tool that has a later namesake is never reachable by name. */
  lemma ShadowedToolUnreachable(tools: seq<ToolHandle>, i: nat, j: nat)
    requires i < j < |tools|
    requires tools[i].name == tools[j].name && tools[i] != tools[j]
    requires forall k | j < k < |tools| :: tools[k].name != tools[j].name
    ensures ToolByName(tools)[tools[i].name] != tools[i]
  {
    ToolByNameLastWins(tools, j);
  }
}
