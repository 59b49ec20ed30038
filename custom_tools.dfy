/**
  The registry of user-defined tools: a list kept free of duplicate
  declaration names by adding only absent names and removing by name.
*/
module CustomTools {
  import opened Wrappers

  /** A function declaration; its `name` may be missing. */
  datatype Declaration = Declaration(name: Option<string>, description: Option<string>, parameters: string)
  datatype CustomTool = CustomTool(declaration: Declaration, implementation: string)

  predicate HasName(tools: seq<CustomTool>, name: Option<string>)
  {
    exists i :: 0 <= i < |tools| && tools[i].declaration.name == name
  }

  predicate UniqueNames(tools: seq<CustomTool>)
  {
    forall i, j :: 0 <= i < j < |tools| ==> tools[i].declaration.name != tools[j].declaration.name
  }

  /** `addTool`'s updater: the list unchanged when the name is taken, else the tool appended. */
  function AddTool(prev: seq<CustomTool>, tool: CustomTool): (r: seq<CustomTool>)
  {
    if HasName(prev, tool.declaration.name) then prev else prev + [tool]
  }

  /** `removeTool`'s updater: every tool whose name differs from `name`, in order. */
  function RemoveTool(prev: seq<CustomTool>, name: string): (r: seq<CustomTool>)
  {
    if prev == [] then []
    else (if prev[0].declaration.name == Some(name) then [] else [prev[0]]) + RemoveTool(prev[1..], name)
  }

  /**
    Adding keeps the existing entries in place, leaves the tool's name
    registered, and grows the list only when the name was new.
  */
  lemma AddToolSpec(prev: seq<CustomTool>, tool: CustomTool)
    ensures var r := AddTool(prev, tool);
      && r[..|prev|] == prev
      && HasName(r, tool.declaration.name)
      && (|r| == |prev| + 1 <==> !HasName(prev, tool.declaration.name))
      && (|r| == |prev| + 1 ==> r[|prev|] == tool)
      && |r| <= |prev| + 1
  {
    if !HasName(prev, tool.declaration.name) {
      assert (prev + [tool])[|prev|] == tool;
    }
  }

  /** Adding keeps the names unique. */
  lemma AddToolUnique(prev: seq<CustomTool>, tool: CustomTool)
    requires UniqueNames(prev)
    ensures UniqueNames(AddTool(prev, tool))
  {
  }

  /** Adding the same tool twice is adding it once. */
  lemma AddToolIdempotent(prev: seq<CustomTool>, tool: CustomTool)
    ensures AddTool(AddTool(prev, tool), tool) == AddTool(prev, tool)
  {
    AddToolSpec(prev, tool);
  }

  /** Removing a name that is absent changes nothing. */
  lemma {:induction false} RemoveAbsent(prev: seq<CustomTool>, name: string)
    requires !HasName(prev, Some(name))
    ensures RemoveTool(prev, name) == prev
    decreases |prev|
  {
    if prev != [] {
      RemoveAbsent(prev[1..], name);
      assert prev[0].declaration.name != Some(name);
    }
  }

  /** Removing from a concatenation removes from each half, so the survivors keep their order. */
  lemma {:induction false} RemoveAppend(prev: seq<CustomTool>, more: seq<CustomTool>, name: string)
    ensures RemoveTool(prev + more, name) == RemoveTool(prev, name) + RemoveTool(more, name)
    decreases |prev|
  {
    if prev == [] {
      assert prev + more == more;
    } else {
      RemoveAppend(prev[1..], more, name);
      var head := if prev[0].declaration.name == Some(name) then [] else [prev[0]];
      assert RemoveTool(prev + more, name) == head + RemoveTool(prev[1..] + more, name) by {
        assert (prev + more)[0] == prev[0];
        assert (prev + more)[1..] == prev[1..] + more;
      }
      assert RemoveTool(prev, name) == head + RemoveTool(prev[1..], name);
      assert head + (RemoveTool(prev[1..], name) + RemoveTool(more, name))
          == (head + RemoveTool(prev[1..], name)) + RemoveTool(more, name);
    }
  }

  /** A tool survives removal exactly when it was in the list under another name. */
  lemma {:induction false} RemoveKeepsOthers(prev: seq<CustomTool>, name: string)
    ensures forall t :: t in RemoveTool(prev, name) <==> t in prev && t.declaration.name != Some(name)
    decreases |prev|
  {
    if prev != [] {
      RemoveKeepsOthers(prev[1..], name);
      assert forall t :: t in prev <==> t == prev[0] || t in prev[1..];
    }
  }

  /** Removing never grows the list, and shrinks it whenever the name was present. */
  lemma {:induction false} RemoveLength(prev: seq<CustomTool>, name: string)
    ensures |RemoveTool(prev, name)| <= |prev|
    ensures HasName(prev, Some(name)) ==> |RemoveTool(prev, name)| < |prev|
    decreases |prev|
  {
    if prev != [] {
      RemoveLength(prev[1..], name);
      if HasName(prev, Some(name)) && prev[0].declaration.name != Some(name) {
        var i :| 0 <= i < |prev| && prev[i].declaration.name == Some(name);
        assert prev[1..][i - 1].declaration.name == Some(name);
      }
    }
  }

  /** Removing preserves unique names. */
  lemma {:induction false} RemoveUnique(prev: seq<CustomTool>, name: string)
    requires UniqueNames(prev)
    ensures UniqueNames(RemoveTool(prev, name))
    decreases |prev|
  {
    if prev != [] {
      RemoveUnique(prev[1..], name);
      RemoveKeepsOthers(prev[1..], name);
      var rest := RemoveTool(prev[1..], name);
      forall t | t in rest ensures t.declaration.name != prev[0].declaration.name {
        var j :| 0 <= j < |prev[1..]| && prev[1..][j] == t;
        assert prev[j + 1] == t;
      }
    }
  }

  /** Removing a freshly added tool restores the list. */
  lemma RemoveUndoesAdd(prev: seq<CustomTool>, tool: CustomTool, name: string)
    requires tool.declaration.name == Some(name) && !HasName(prev, Some(name))
    ensures RemoveTool(AddTool(prev, tool), name) == prev
  {
    RemoveAppend(prev, [tool], name);
    RemoveAbsent(prev, name);
    assert RemoveTool([tool], name) == [];
  }
}
