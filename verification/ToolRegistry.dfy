/** The tool registry as an object: three maps and the specs' alias lists, updated
    in place. */
module ToolRegistry {
  import opened Common
  import opened PyText
  import opened ToolTables
  import opened ToolPolicy

  class ToolSpec {
    const name: string
    const traits: Traits
    /** What the metadata names as source, or empty. */
    const inferredSource: string
    var aliases: seq<string>

    /** A blank name is refused. */
    constructor (name: string, traits: Traits, inferredSource: string, aliases: seq<string>)
      requires Strip(name) != ""
      ensures this.name == Strip(name) && this.traits == traits && this.inferredSource == inferredSource
      ensures this.aliases == aliases
    {
      this.name := Strip(name);
      this.traits := traits;
      this.inferredSource := inferredSource;
      this.aliases := aliases;
    }
  }

  /** `_unique_names`. */
  method UniqueStripped(values: seq<string>) returns (names: Option<seq<string>>)
    ensures names == UniqueNames(values)
  {
    hide Strip;
    var result: seq<string> := [];
    var i := 0;
    while i < |values|
      invariant 0 <= i <= |values|
      invariant UniqueNames(values[..i]) == Some(result)
    {
      var name := Strip(values[i]);
      assert values[..i + 1][..i] == values[..i];
      if name == "" {
        BlankSpoils(values, i + 1);
        return None;
      }
      if name !in result {
        result := result + [name];
      }
      i := i + 1;
    }
    assert values[..i] == values;
    names := Some(result);
  }

  lemma {:induction false} BlankSpoils(values: seq<string>, k: nat)
    requires k <= |values| && UniqueNames(values[..k]).None?
    ensures UniqueNames(values).None?
  {
    if k == |values| {
      assert values[..k] == values;
    } else {
      var rest := values[..|values| - 1];
      assert rest[..k] == values[..k];
      BlankSpoils(rest, k);
    }
  }

  class ToolRegistry {
    var specs: map<string, ToolSpec>
    var aliases: map<string, string>
    var sources: map<string, set<string>>

    ghost function View(): Tables
      reads this, specs.Values
    {
      Tables(map n | n in specs :: specs[n].aliases, aliases, sources)
    }

    /** Specs are filed under their names, and the maps agree. */
    ghost predicate Valid()
      reads this, specs.Values
    {
      (forall n | n in specs :: specs[n].name == n) && Consistent(View())
    }

    constructor ()
      ensures Valid() && View() == NOTHING && specs == map[]
    {
      specs, aliases, sources := map[], map[], map[];
    }

    method ResolveName(tool: string) returns (name: Option<string>)
      ensures name == Resolved(View(), tool)
    {
      var stripped := Strip(tool);
      if stripped in specs {
        return Some(stripped);
      }
      name := if stripped in aliases then Some(aliases[stripped]) else None;
    }

    method Get(tool: string) returns (spec: ToolSpec?)
      requires Valid()
      ensures Resolved(View(), tool).None? <==> spec == null
      ensures spec != null ==>
                Resolved(View(), tool) == Some(spec.name) && spec.name in specs && specs[spec.name] == spec
    {
      var name := ResolveName(tool);
      if name.Some? && name.value in specs {
        spec := specs[name.value];
      } else {
        spec := null;
      }
    }

    method CheckAliases(name: string, requested: seq<string>) returns (error: Option<RegError>)
      ensures error == FirstConflict(View(), name, requested)
    {
      ghost var t := View();
      var i := 0;
      while i < |requested|
        invariant 0 <= i <= |requested|
        invariant FirstConflict(t, name, requested[..i]).None?
      {
        var alias := requested[i];
        assert requested[..i + 1][..i] == requested[..i];
        error := None;
        if alias == name {
          error := Some(AliasIsName);
        } else if alias in specs {
          error := Some(AliasIsTool);
        } else if alias in aliases {
          error := Some(AliasTaken);
        }
        if error.Some? {
          ConflictStays(t, name, requested, i + 1);
          return;
        }
        i := i + 1;
      }
      assert requested[..i] == requested;
      error := None;
    }

    method PointAliases(names: seq<string>, name: string)
      modifies this`aliases
      ensures aliases == old(aliases) + Pointing(names, name)
    {
      var i := 0;
      while i < |names|
        invariant 0 <= i <= |names|
        invariant aliases == old(aliases) + Pointing(names[..i], name)
      {
        assert names[..i + 1] == names[..i] + [names[i]];
        aliases := aliases[names[i] := name];
        i := i + 1;
      }
      assert names[..i] == names;
    }

    method FileUnder(source: string, name: string)
      modifies this`sources
      ensures sources == Filed(old(sources), source, name)
    {
      if source != "" {
        var members := if source in sources then sources[source] else {};
        sources := sources[source := members + {name}];
      }
    }

    /** Rejected, nothing changes. Accepted, the spec is filed with its aliases and
        source, and carries the aliases it was given. */
    method Register(spec: ToolSpec, extra: seq<string>, source: string) returns (error: Option<RegError>)
      requires Valid() && Plain(spec.name)
      modifies this, spec
      ensures Valid()
      ensures var own := old(spec.aliases);
              var chosen := if source != "" then source else spec.inferredSource;
              match Registered(old(View()), spec.name, own, extra, chosen)
              case Err(e) => error == Some(e) && View() == old(View()) && specs == old(specs) && spec.aliases == own
              case Ok(t) => error.None? && View() == t && specs == old(specs)[spec.name := spec]
    {
      hide Strip, Consistent, UniqueNames, FirstConflict, Filed, Pointing, Plain, Registered;
      var name := spec.name;
      RegisteredCases(View(), name, spec.aliases, extra, if source != "" then source else spec.inferredSource);
      if name in specs {
        return Some(NameTaken);
      }
      if name in aliases {
        return Some(NameIsAlias);
      }
      var requested := UniqueStripped(spec.aliases + extra);
      if requested.None? {
        return Some(BlankName);
      }
      var conflict := CheckAliases(name, requested.value);
      if conflict.Some? {
        return conflict;
      }
      ghost var before := View();
      var chosen := if source != "" then source else spec.inferredSource;
      KeepsRegistered(before, name, spec.aliases, extra, chosen);
      spec.aliases := requested.value;
      specs := specs[name := spec];
      PointAliases(requested.value, name);
      FileUnder(chosen, name);
      assert View().listed == before.listed[name := requested.value];
      error := None;
    }

    method DropAliases(name: string)
      modifies this`aliases
      ensures aliases == NotTo(old(aliases), name)
    {
      var items := aliases.Keys;
      while items != {}
        invariant items <= old(aliases).Keys
        invariant aliases == map a | a in old(aliases) && (a in items || old(aliases)[a] != name) :: old(aliases)[a]
        decreases |items|
      {
        var alias :| alias in items;
        if aliases[alias] == name {
          aliases := aliases - {alias};
        }
        items := items - {alias};
      }
    }

    method DropFromSources(name: string)
      modifies this`sources
      ensures sources == Without(old(sources), name)
    {
      ghost var before := sources;
      HalfEnds(before, name);
      hide HalfWithout, Without;
      var items := sources.Keys;
      while items != {}
        invariant items <= before.Keys
        invariant sources == HalfWithout(before, name, items)
        decreases |items|
      {
        var source :| source in items;
        HalfStep(before, name, items, source);
        var left := sources[source] - {name};
        sources := if left == {} then sources - {source} else sources[source := left];
        items := items - {source};
      }
    }

    /** By name or alias; unknown names are ignored. */
    method Unregister(tool: string) returns (spec: ToolSpec?)
      requires Valid()
      modifies this
      ensures Valid() && View() == Unregistered(old(View()), tool)
      ensures spec == null <==> Resolved(old(View()), tool).None?
      ensures spec != null ==>
                spec.name in old(specs) && old(specs)[spec.name] == spec && specs == old(specs) - {spec.name}
      ensures specs.Values <= old(specs.Values)
    {
      hide Strip, Consistent, NotTo, Without;
      ghost var before := View();
      KeepsUnregistered(before, tool);
      TargetLives(before, tool);
      var name := ResolveName(tool);
      if name.None? {
        return null;
      }
      spec := specs[name.value];
      specs := specs - {name.value};
      DropAliases(name.value);
      DropFromSources(name.value);
      assert View().listed == before.listed - {name.value};
    }

    /** Removes the source's tools one by one, in their order; they are the result. */
    method RemoveDynamicSource(source: string) returns (names: seq<string>)
      requires Valid()
      modifies this
      ensures Valid() && Sorted(names) && Unrepeated(names)
      ensures forall n :: n in names <==> source in old(sources) && n in old(sources)[source]
      ensures View() == UnregisteredAll(old(View()), names)
    {
      hide Consistent, Unregistered, Resolved, Sorted, Unrepeated;
      names := SortedNames(if source in sources then sources[source] else {});
      SortedUnrepeated(names);
      for k := 0 to |names|
        invariant Valid() && View() == UnregisteredAll(old(View()), names[..k])
        invariant specs.Values <= old(specs.Values)
      {
        var _ := Unregister(names[k]);
        assert names[..k + 1][..k] == names[..k];
      }
      assert names[..|names|] == names;
    }

    /** The new alias also enters the tool's own list. */
    method RegisterAlias(alias: string, tool: string) returns (r: Result<string, RegError>)
      requires Valid()
      modifies this, specs.Values
      ensures Valid() && specs == old(specs)
      ensures match Aliased(old(View()), alias, tool)
              case Err(e) => r == Err(e) && View() == old(View())
              case Ok(t) => r.Ok? && Resolved(old(View()), tool) == Some(r.value) && View() == t
    {
      hide Strip, Consistent;
      ghost var before := View();
      KeepsAliased(before, alias, tool);
      TargetLives(before, tool);
      var stripped := Strip(alias);
      if stripped == "" {
        return Err(BlankName);
      }
      var name := ResolveName(tool);
      if name.None? {
        return Err(NoSuchTool);
      }
      if stripped == name.value {
        return Err(AliasIsName);
      }
      if stripped in specs {
        return Err(AliasIsTool);
      }
      if stripped in aliases {
        return Err(AliasTaken);
      }
      aliases := aliases[stripped := name.value];
      var spec := specs[name.value];
      if stripped !in spec.aliases {
        spec.aliases := spec.aliases + [stripped];
      }
      assert View().listed == Aliased(before, alias, tool).value.listed;
      r := Ok(name.value);
    }
  }

  lemma RegisteredCases(t: Tables, name: string, own: seq<string>, extra: seq<string>, source: string)
    ensures var r := Registered(t, name, own, extra, source);
            var names := UniqueNames(own + extra);
            if name in t.listed then r == Err(NameTaken)
            else if name in t.aliases then r == Err(NameIsAlias)
            else if names.None? then r == Err(BlankName)
            else if FirstConflict(t, name, names.value).Some? then r == Err(FirstConflict(t, name, names.value).value)
            else
              r == Ok(Tables(t.listed[name := names.value], t.aliases + Pointing(names.value, name),
                             Filed(t.sources, source, name)))
  {
    hide UniqueNames, FirstConflict, Filed, Pointing;
  }

  lemma SortedUnrepeated(names: seq<string>)
    requires Sorted(names)
    ensures Unrepeated(names)
  {
    forall i, j | 0 <= i < j < |names| ensures names[i] != names[j] { TextOrder(names[i], names[j], names[j]); }
  }

  lemma TargetLives(t: Tables, tool: string)
    requires Consistent(t)
    ensures Resolved(t, tool).Some? ==> Resolved(t, tool).value in t.listed
  {
    hide Strip, SourcesOk, ListsOk;
  }

  lemma {:induction false} ConflictStays(t: Tables, name: string, aliases: seq<string>, k: nat)
    requires k <= |aliases| && FirstConflict(t, name, aliases[..k]).Some?
    ensures FirstConflict(t, name, aliases) == FirstConflict(t, name, aliases[..k])
  {
    if k == |aliases| {
      assert aliases[..k] == aliases;
    } else {
      var rest := aliases[..|aliases| - 1];
      assert rest[..k] == aliases[..k];
      ConflictStays(t, name, rest, k);
    }
  }

  /** Sources with the name dropped from all but the `todo` ones. */
  ghost function HalfWithout(
    sources: map<string, set<string>>, name: string, todo: set<string>): map<string, set<string>>
  {
    map s | s in sources && (s in todo || sources[s] - {name} != {}) ::
      if s in todo then sources[s] else sources[s] - {name}
  }

  lemma HalfEnds(sources: map<string, set<string>>, name: string)
    ensures HalfWithout(sources, name, sources.Keys) == sources
    ensures HalfWithout(sources, name, {}) == Without(sources, name)
  {
  }

  lemma HalfStep(sources: map<string, set<string>>, name: string, todo: set<string>, s: string)
    requires todo <= sources.Keys && s in todo
    ensures var half := HalfWithout(sources, name, todo);
            && s in half
            && HalfWithout(sources, name, todo - {s})
               == if half[s] - {name} == {} then half - {s} else half[s := half[s] - {name}]
  {
  }
}
