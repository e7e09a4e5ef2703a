/** The tool registry's three maps as one value: every operation, and what all of
    them keep. */
module ToolTables {
  import opened Common
  import opened PyText

  /** `listed` maps each tool to its spec's alias list. */
  datatype Tables = Tables(
    listed: map<string, seq<string>>, aliases: map<string, string>, sources: map<string, set<string>>)

  const NOTHING := Tables(map[], map[], map[])

  datatype RegError = NameTaken | NameIsAlias | BlankName | AliasIsName | AliasIsTool | AliasTaken | NoSuchTool

  // ---------- Operations ----------

  /** `_unique_names`: stripped, first occurrences only; None when one is blank. */
  function UniqueNames(values: seq<string>): Option<seq<string>> {
    if values == [] then Some([])
    else
      match UniqueNames(values[..|values| - 1])
      case None => None
      case Some(names) =>
        var name := Strip(values[|values| - 1]);
        if name == "" then None else if name in names then Some(names) else Some(names + [name])
  }

  function Conflict(t: Tables, name: string, alias: string): Option<RegError> {
    if alias == name then Some(AliasIsName)
    else if alias in t.listed then Some(AliasIsTool)
    else if alias in t.aliases then Some(AliasTaken)
    else None
  }

  function FirstConflict(t: Tables, name: string, aliases: seq<string>): Option<RegError> {
    if aliases == [] then None
    else
      var earlier := FirstConflict(t, name, aliases[..|aliases| - 1]);
      if earlier.Some? then earlier else Conflict(t, name, aliases[|aliases| - 1])
  }

  function Pointing(aliases: seq<string>, name: string): map<string, string> {
    map a | a in aliases :: name
  }

  function Filed(sources: map<string, set<string>>, source: string, name: string): map<string, set<string>> {
    if source == "" then sources
    else sources[source := (if source in sources then sources[source] else {}) + {name}]
  }

  /** `own` is the spec's alias list, `extra` the argument; `source` the argument
      or else what the metadata says. */
  function Registered(t: Tables, name: string, own: seq<string>, extra: seq<string>, source: string):
    Result<Tables, RegError>
  {
    if name in t.listed then Err(NameTaken)
    else if name in t.aliases then Err(NameIsAlias)
    else
      match UniqueNames(own + extra)
      case None => Err(BlankName)
      case Some(names) =>
        var conflict := FirstConflict(t, name, names);
        if conflict.Some? then Err(conflict.value)
        else Ok(Tables(t.listed[name := names], t.aliases + Pointing(names, name), Filed(t.sources, source, name)))
  }

  function Resolved(t: Tables, tool: string): Option<string> {
    var name := Strip(tool);
    if name in t.listed then Some(name) else if name in t.aliases then Some(t.aliases[name]) else None
  }

  function NotTo(aliases: map<string, string>, name: string): map<string, string> {
    map a | a in aliases && aliases[a] != name :: aliases[a]
  }

  function Without(sources: map<string, set<string>>, name: string): map<string, set<string>> {
    map s | s in sources && sources[s] - {name} != {} :: sources[s] - {name}
  }

  function Unregistered(t: Tables, tool: string): Tables {
    match Resolved(t, tool)
    case None => t
    case Some(name) => Tables(t.listed - {name}, NotTo(t.aliases, name), Without(t.sources, name))
  }

  function Aliased(t: Tables, alias: string, tool: string): Result<Tables, RegError> {
    var stripped := Strip(alias);
    if stripped == "" then Err(BlankName)
    else
      match Resolved(t, tool)
      case None => Err(NoSuchTool)
      case Some(name) =>
        var conflict := Conflict(t, name, stripped);
        if conflict.Some? then Err(conflict.value)
        else if name !in t.listed then Err(NoSuchTool)
        else
          var names := t.listed[name];
          Ok(t.(aliases := t.aliases[stripped := name],
                listed := t.listed[name := if stripped in names then names else names + [stripped]]))
  }

  /** Unregisters the tools one by one. */
  function UnregisteredAll(t: Tables, names: seq<string>): Tables {
    if names == [] then t else Unregistered(UnregisteredAll(t, names[..|names| - 1]), names[|names| - 1])
  }

  // ---------- Consistency ----------

  predicate Unrepeated(names: seq<string>) {
    forall i, j | 0 <= i < j < |names| :: names[i] != names[j]
  }

  predicate Plain(name: string) { name != "" && Trimmed(name) }

  /** Aliases are no tool's name and lead to live tools. */
  predicate AliasesOk(t: Tables) {
    forall a | a in t.aliases :: Plain(a) && a !in t.listed && t.aliases[a] in t.listed
  }

  /** Each live tool lists exactly the aliases that lead to it, once each. */
  ghost predicate ListsOk(t: Tables) {
    && (forall n | n in t.listed :: Plain(n) && Unrepeated(t.listed[n]))
    && (forall n, a | n in t.listed :: a in t.listed[n] <==> a in t.aliases && t.aliases[a] == n)
  }

  /** Sources are nonempty sets of live tools, no tool in two. */
  predicate SourcesOk(t: Tables) {
    && (forall s | s in t.sources :: t.sources[s] != {} && t.sources[s] <= t.listed.Keys)
    && (forall s, u | s in t.sources && u in t.sources && s != u :: t.sources[s] !! t.sources[u])
  }

  ghost predicate Consistent(t: Tables) { AliasesOk(t) && ListsOk(t) && SourcesOk(t) }

  // ---------- Names ----------

  lemma {:induction false} UniqueNamesAre(values: seq<string>)
    ensures UniqueNames(values).None? <==> exists v | v in values :: Strip(v) == ""
    ensures UniqueNames(values).Some? ==>
              var names := UniqueNames(values).value;
              && Unrepeated(names)
              && (forall n | n in names :: Plain(n))
              && (forall n :: n in names <==> exists v | v in values :: Strip(v) == n)
  {
    if values != [] {
      var (rest, last) := (values[..|values| - 1], values[|values| - 1]);
      assert values == rest + [last];
      UniqueNamesAre(rest);
      hide Plain, Trimmed, AllSpace;
      assert Strip(last) != "" ==> Plain(Strip(last)) by { StripPlain(last); }
      if UniqueNames(values).Some? {
        var names := UniqueNames(values).value;
        forall n ensures n in names <==> exists v | v in values :: Strip(v) == n {
          if n in names && n !in UniqueNames(rest).value { assert last in values; }
        }
      }
    }
  }

  lemma StripPlain(s: string)
    ensures Strip(s) != "" ==> Plain(Strip(s))
  {
  }

  lemma {:induction false} FirstConflictNone(t: Tables, name: string, aliases: seq<string>)
    ensures FirstConflict(t, name, aliases).None? <==> forall a | a in aliases :: Conflict(t, name, a).None?
  {
    if aliases != [] {
      hide Conflict;
      var (rest, last) := (aliases[..|aliases| - 1], aliases[|aliases| - 1]);
      assert aliases == rest + [last];
      FirstConflictNone(t, name, rest);
    }
  }

  /** Registration goes through exactly when the name is new in both maps and
      every alias, stripped, is nonblank, not the name, and new in both maps. */
  lemma RegisteredIff(t: Tables, name: string, own: seq<string>, extra: seq<string>, source: string)
    ensures Registered(t, name, own, extra, source).Ok?
       <==> name !in t.listed && name !in t.aliases
            && forall v | v in own + extra ::
                 Strip(v) != "" && Strip(v) != name && Strip(v) !in t.listed && Strip(v) !in t.aliases
  {
    hide Strip, Filed, Pointing;
    UniqueNamesAre(own + extra);
    if UniqueNames(own + extra).Some? {
      var names := UniqueNames(own + extra).value;
      FirstConflictNone(t, name, names);
      assert forall v | v in own + extra :: Strip(v) in names;
    }
  }

  // ---------- Every operation keeps consistency ----------

  /** Names fit to become aliases of a new tool. */
  predicate Usable(t: Tables, name: string, names: seq<string>) {
    Unrepeated(names) && forall a | a in names :: Plain(a) && a != name && a !in t.listed && a !in t.aliases
  }

  lemma RegisteredNames(t: Tables, name: string, own: seq<string>, extra: seq<string>, source: string)
    requires Registered(t, name, own, extra, source).Ok?
    ensures name !in t.listed && name !in t.aliases
    ensures UniqueNames(own + extra).Some? && Usable(t, name, UniqueNames(own + extra).value)
  {
    hide Plain, Unrepeated, Strip, Filed, Pointing;
    UniqueNamesAre(own + extra);
    var names := UniqueNames(own + extra).value;
    FirstConflictNone(t, name, names);
    assert forall a | a in names :: Conflict(t, name, a).None?;
  }

  lemma AliasesGrow(t: Tables, after: Tables, name: string, names: seq<string>)
    requires AliasesOk(t) && Usable(t, name, names) && name !in t.aliases
    requires after.listed == t.listed[name := names] && after.aliases == t.aliases + Pointing(names, name)
    ensures AliasesOk(after)
  {
    hide Plain, Unrepeated;
  }

  lemma ListsGrow(t: Tables, after: Tables, name: string, names: seq<string>)
    requires AliasesOk(t) && ListsOk(t) && Plain(name) && name !in t.listed && Usable(t, name, names)
    requires after.listed == t.listed[name := names] && after.aliases == t.aliases + Pointing(names, name)
    ensures ListsOk(after)
  {
    hide Plain, Unrepeated;
  }

  lemma KeepsRegistered(t: Tables, name: string, own: seq<string>, extra: seq<string>, source: string)
    requires Consistent(t) && Plain(name)
    ensures var r := Registered(t, name, own, extra, source); r.Ok? ==> Consistent(r.value)
  {
    hide Plain, AliasesOk, ListsOk, UniqueNames, Usable, Pointing, Filed;
    var r := Registered(t, name, own, extra, source);
    if r.Ok? {
      RegisteredNames(t, name, own, extra, source);
      var names := UniqueNames(own + extra).value;
      AliasesGrow(t, r.value, name, names);
      ListsGrow(t, r.value, name, names);
      FiledKeeps(t.sources, t.listed.Keys, source, name);
    }
  }

  predicate SourcesIn(sources: map<string, set<string>>, live: set<string>) {
    && (forall s | s in sources :: sources[s] != {} && sources[s] <= live)
    && (forall s, u | s in sources && u in sources && s != u :: sources[s] !! sources[u])
  }

  lemma FiledKeeps(sources: map<string, set<string>>, live: set<string>, source: string, name: string)
    requires SourcesIn(sources, live) && name !in live
    ensures SourcesIn(Filed(sources, source, name), live + {name})
  {
    var after := Filed(sources, source, name);
    forall s, u | s in after && u in after && s != u ensures after[s] !! after[u] {
      forall x | x in after[s] ensures x !in after[u] {
        if x == name { assert source in {s, u}; }
      }
    }
  }

  lemma KeepsUnregistered(t: Tables, tool: string)
    requires Consistent(t)
    ensures Consistent(Unregistered(t, tool))
  {
    hide Plain, Unrepeated, Strip;
  }

  lemma AliasedIs(t: Tables, alias: string, tool: string)
    requires Aliased(t, alias, tool).Ok?
    ensures Resolved(t, tool).Some?
    ensures var (a, name) := (Strip(alias), Resolved(t, tool).value);
            && a != "" && a != name && a !in t.listed && a !in t.aliases && name in t.listed
            && Aliased(t, alias, tool).value.aliases == t.aliases[a := name]
            && Aliased(t, alias, tool).value.sources == t.sources
            && (a !in t.listed[name] ==>
                  Aliased(t, alias, tool).value.listed == t.listed[name := t.listed[name] + [a]])
  {
    hide Strip, Resolved;
  }

  lemma AliasAdded(t: Tables, a: string, name: string)
    requires AliasesOk(t) && Plain(a) && a !in t.listed && name in t.listed
    ensures AliasesOk(t.(aliases := t.aliases[a := name]))
  {
    hide Plain;
  }

  lemma ListedAdded(t: Tables, after: Tables, a: string, name: string)
    requires ListsOk(t) && a !in t.aliases && name in t.listed
    requires after.listed == t.listed[name := t.listed[name] + [a]] && after.aliases == t.aliases[a := name]
    ensures ListsOk(after)
  {
    UnrepeatedSnoc(t.listed[name], a);
    hide Plain, Unrepeated;
  }

  lemma NotListed(t: Tables, a: string, name: string)
    requires ListsOk(t) && a !in t.aliases && name in t.listed
    ensures a !in t.listed[name]
  {
    hide Plain, Unrepeated;
  }

  lemma SameKeys(t: Tables, after: Tables)
    requires Consistent(t) && AliasesOk(t.(aliases := after.aliases)) && ListsOk(after)
    requires after.listed.Keys == t.listed.Keys && after.sources == t.sources
    ensures Consistent(after)
  {
    hide Plain, ListsOk;
    assert forall n :: n in after.listed <==> n in after.listed.Keys;
  }

  lemma KeepsAliased(t: Tables, alias: string, tool: string)
    requires Consistent(t)
    ensures var r := Aliased(t, alias, tool); r.Ok? ==> Consistent(r.value)
  {
    hide Strip, Aliased, Resolved, AliasesOk, ListsOk, SourcesOk, Plain, Trimmed;
    var r := Aliased(t, alias, tool);
    if r.Ok? {
      StripPlain(alias);
      AliasedIs(t, alias, tool);
      var (a, name) := (Strip(alias), Resolved(t, tool).value);
      NotListed(t, a, name);
      AliasAdded(t, a, name);
      ListedAdded(t, r.value, a, name);
      SameKeys(t, r.value);
    }
  }

  lemma UnrepeatedSnoc(names: seq<string>, name: string)
    requires Unrepeated(names) && name !in names
    ensures Unrepeated(names + [name])
  {
  }

  // ---------- Whole runs ----------

  datatype Op =
    | Register(name: string, own: seq<string>, extra: seq<string>, source: string)
    | Unregister(tool: string)
    | AddAlias(alias: string, tool: string)
    | RemoveSource(names: seq<string>)

  function OrElse(r: Result<Tables, RegError>, t: Tables): Tables {
    if r.Ok? then r.value else t
  }

  /** `ToolSpec` strips its name and refuses a blank one. */
  function Apply(t: Tables, op: Op): Tables {
    match op
    case Register(name, own, extra, source) =>
      if Strip(name) == "" then t else OrElse(Registered(t, Strip(name), own, extra, source), t)
    case Unregister(tool) => Unregistered(t, tool)
    case AddAlias(alias, tool) => OrElse(Aliased(t, alias, tool), t)
    case RemoveSource(names) => UnregisteredAll(t, names)
  }

  function RunAll(ops: seq<Op>): Tables {
    if ops == [] then NOTHING else Apply(RunAll(ops[..|ops| - 1]), ops[|ops| - 1])
  }

  lemma {:induction false} KeepsUnregisteredAll(t: Tables, names: seq<string>)
    requires Consistent(t)
    ensures Consistent(UnregisteredAll(t, names))
  {
    if names != [] {
      hide Consistent;
      KeepsUnregisteredAll(t, names[..|names| - 1]);
      KeepsUnregistered(UnregisteredAll(t, names[..|names| - 1]), names[|names| - 1]);
    }
  }

  lemma KeepsApply(t: Tables, op: Op)
    requires Consistent(t)
    ensures Consistent(Apply(t, op))
  {
    hide Consistent, Registered, Aliased, Unregistered, UnregisteredAll, Strip, Trimmed;
    match op
    case Register(name, own, extra, source) =>
      StripPlain(name);
      if Strip(name) != "" { KeepsRegistered(t, Strip(name), own, extra, source); }
    case Unregister(tool) => KeepsUnregistered(t, tool);
    case AddAlias(alias, tool) => KeepsAliased(t, alias, tool);
    case RemoveSource(names) => KeepsUnregisteredAll(t, names);
  }

  /** The maps agree after any sequence of operations, rejected ones included. */
  lemma {:induction false} RunsStayConsistent(ops: seq<Op>)
    ensures Consistent(RunAll(ops))
  {
    if ops != [] {
      hide Consistent, Apply;
      RunsStayConsistent(ops[..|ops| - 1]);
      KeepsApply(RunAll(ops[..|ops| - 1]), ops[|ops| - 1]);
    }
  }

  /** At the end of any sequence a new tool without aliases is taken in, under its
      stripped name, and an alias for it then leads to it. */
  lemma RunsTakeIn(ops: seq<Op>, name: string, alias: string)
    requires var t := RunAll(ops);
             && Strip(name) != "" && Strip(name) !in t.listed && Strip(name) !in t.aliases
             && Strip(alias) !in {"", Strip(name)} && Strip(alias) !in t.listed && Strip(alias) !in t.aliases
    ensures var after := RunAll(ops + [Register(name, [], [], ""), AddAlias(alias, name)]);
            Strip(name) in after.listed && Strip(alias) in after.aliases && after.aliases[Strip(alias)] == Strip(name)
  {
    hide RunAll, Strip, Filed;
    var (register, add) := (Register(name, [], [], ""), AddAlias(alias, name));
    RunAllSnoc(ops, register);
    RunAllSnoc(ops + [register], add);
    assert ops + [register] + [add] == ops + [register, add];
    TakenIn(RunAll(ops), Strip(name));
  }

  lemma RunAllSnoc(ops: seq<Op>, op: Op)
    ensures RunAll(ops + [op]) == Apply(RunAll(ops), op)
  {
    hide Apply;
    assert (ops + [op])[..|ops|] == ops;
  }

  lemma TakenIn(t: Tables, name: string)
    requires name !in t.listed && name !in t.aliases
    ensures var r := Registered(t, name, [], [], "");
            r.Ok? && r.value.listed == t.listed[name := []] && r.value.aliases == t.aliases
  {
    hide Strip, Filed;
    RegisteredIff(t, name, [], [], "");
    UniqueNamesAre([]);
  }

  // ---------- What consistency gives ----------

  /** A name resolves to a tool exactly when it is the tool's own or one it lists. */
  lemma ResolvesByList(t: Tables, tool: string, name: string)
    requires Consistent(t)
    ensures Resolved(t, tool) == Some(name)
       <==> name in t.listed && (Strip(tool) == name || Strip(tool) in t.listed[name])
  {
    hide Plain, Unrepeated, Strip, SourcesOk;
  }

  /** Unregistering a fresh tool, by its name or any alias, undoes its registration. */
  lemma UnregisterUndoes(t: Tables, name: string, own: seq<string>, extra: seq<string>, source: string, tool: string)
    requires Consistent(t) && Plain(name)
    requires Registered(t, name, own, extra, source).Ok?
    requires Resolved(Registered(t, name, own, extra, source).value, tool) == Some(name)
    ensures Unregistered(Registered(t, name, own, extra, source).value, tool) == t
  {
    hide Unrepeated, Strip, UniqueNames, Plain, Resolved;
    var after := Registered(t, name, own, extra, source).value;
    var names := UniqueNames(own + extra).value;
    FirstConflictNone(t, name, names);
    assert forall a | a in names :: Conflict(t, name, a).None?;
    assert NotTo(after.aliases, name) == t.aliases;
    assert Without(after.sources, name) == t.sources by { FiledUndone(t, source, name); }
    assert after.listed - {name} == t.listed;
  }

  lemma FiledUndone(t: Tables, source: string, name: string)
    requires SourcesOk(t) && name !in t.listed
    ensures Without(Filed(t.sources, source, name), name) == t.sources
  {
    var after := Filed(t.sources, source, name);
    forall s | s in t.sources ensures s in after && after[s] - {name} == t.sources[s] {}
    forall s | s in after && s !in t.sources ensures after[s] - {name} == {} {}
  }

  function Kept(listed: map<string, seq<string>>, names: seq<string>): map<string, seq<string>> {
    map n | n in listed && n !in names :: listed[n]
  }

  function KeptAliases(aliases: map<string, string>, names: seq<string>): map<string, string> {
    map a | a in aliases && aliases[a] !in names :: aliases[a]
  }

  /** Removing tools in any order drops exactly those tools, the aliases leading
      to them, and their names from the sources. */
  lemma {:induction false} RemovesExactly(t: Tables, names: seq<string>)
    requires Consistent(t) && Unrepeated(names) && forall n | n in names :: n in t.listed
    ensures UnregisteredAll(t, names)
         == Tables(Kept(t.listed, names), KeptAliases(t.aliases, names), Remaining(t.sources, names))
  {
    if names == [] {
      assert Kept(t.listed, []) == t.listed && KeptAliases(t.aliases, []) == t.aliases;
      RemainingNone(t);
    } else {
      hide Consistent, Remaining, Kept, KeptAliases, Without, NotTo, Resolved;
      var (rest, last) := (names[..|names| - 1], names[|names| - 1]);
      assert names == rest + [last];
      RemovesExactly(t, rest);
      RemainingStep(t.sources, rest, last);
      KeptStep(t, rest, last);
      ResolvedSelf(t, UnregisteredAll(t, rest), rest, last);
    }
  }

  lemma ResolvedSelf(t: Tables, before: Tables, rest: seq<string>, last: string)
    requires Consistent(t) && before.listed == Kept(t.listed, rest) && last in t.listed && last !in rest
    ensures Resolved(before, last) == Some(last)
  {
    hide Unrepeated, AliasesOk, SourcesOk;
  }

  lemma KeptStep(t: Tables, rest: seq<string>, last: string)
    ensures Kept(t.listed, rest) - {last} == Kept(t.listed, rest + [last])
    ensures NotTo(KeptAliases(t.aliases, rest), last) == KeptAliases(t.aliases, rest + [last])
  {
  }

  ghost function Left(members: set<string>, names: seq<string>): set<string> {
    set n | n in members && n !in names
  }

  ghost function Remaining(sources: map<string, set<string>>, names: seq<string>): map<string, set<string>> {
    map s | s in sources && Left(sources[s], names) != {} :: Left(sources[s], names)
  }

  lemma RemainingNone(t: Tables)
    requires SourcesOk(t)
    ensures Remaining(t.sources, []) == t.sources
  {
    forall s | s in t.sources ensures Left(t.sources[s], []) == t.sources[s] {}
  }

  lemma RemainingStep(sources: map<string, set<string>>, rest: seq<string>, last: string)
    ensures Without(Remaining(sources, rest), last) == Remaining(sources, rest + [last])
  {
    forall s | s in sources ensures Left(sources[s], rest) - {last} == Left(sources[s], rest + [last]) {}
  }

  /** `remove_dynamic_source` removes that source with exactly its own tools. */
  lemma RemovesOneSource(t: Tables, source: string, names: seq<string>)
    requires Consistent(t) && source in t.sources && Unrepeated(names)
    requires forall n :: n in names <==> n in t.sources[source]
    ensures var after := UnregisteredAll(t, names);
            && after.listed == t.listed - t.sources[source]
            && after.aliases == (map a | a in t.aliases && t.aliases[a] !in t.sources[source] :: t.aliases[a])
            && after.sources == t.sources - {source}
  {
    hide UnregisteredAll, AliasesOk, ListsOk;
    RemovesExactly(t, names);
    OthersRemain(t, source, names);
  }

  lemma OthersRemain(t: Tables, source: string, names: seq<string>)
    requires SourcesOk(t) && source in t.sources && forall n :: n in names <==> n in t.sources[source]
    ensures Remaining(t.sources, names) == t.sources - {source}
  {
    assert Left(t.sources[source], names) == {};
    forall s | s in t.sources && s != source ensures Left(t.sources[s], names) == t.sources[s] {
      assert t.sources[s] !! t.sources[source];
    }
  }
}
