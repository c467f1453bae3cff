/**
 * internal/registry/registry.go: default alias validation, resolution and the list of
 * invokable names; internal/projectconfig/projectconfig.go: the add-only overlay merge.
 * The source walks Go maps, whose order is random; here every walk picks arbitrarily,
 * and the results are proved not to depend on the picks.
 */
module Aliases {
  import opened Wrappers
  import opened Text
  import opened Registry
  import opened Sorting

  // ---------------------------------------------------------------- what resolution means

  /** `concrete` is the selected supplier of the alias `name`. */
  predicate Supplies(reg: Registry, concrete: string, name: string) {
    && concrete in reg.tools
    && var t := reg.tools[concrete];
       t.defaultFamily in reg.defaults && reg.defaults[t.defaultFamily] == t.defaultVersion && t.defaultAlias == name
  }

  /** The requested name keeps its own spelling inside the tool; the second part is the concrete profile. */
  ghost function ResolveSpec(reg: Registry, name: string): Option<(Tool, string)> {
    var n := Lower(name);
    if n in reg.tools then Some((reg.tools[n], n))
    else if exists c :: Supplies(reg, c, n) then
      var c :| Supplies(reg, c, n);
      Some((reg.tools[c].(name := n), c))
    else None
  }

  /** Every name a shim may have: concrete tools and selected aliases. */
  function InvokableNames(reg: Registry): set<string> {
    reg.tools.Keys + set c | c in reg.tools && Supplies(reg, c, reg.tools[c].defaultAlias) :: reg.tools[c].defaultAlias
  }

  /** In an accepted registry an alias has at most one selected supplier, and it is no concrete name. */
  lemma SupplierUnique(reg: Registry, c: string, d: string, name: string)
    requires DefaultsOk(reg) && Supplies(reg, c, name) && Supplies(reg, d, name)
    ensures c == d && name !in reg.tools
  {
    var t := reg.tools[c];
    FamilyNamed(reg, t.defaultFamily);
    FamilyNamed(reg, reg.tools[d].defaultFamily);
    assert HasMetadata(t) && HasMetadata(reg.tools[d]);
    assert c == d || Compatible(reg.tools[c], reg.tools[d]);
  }

  /** No alias has two selected suppliers. */
  predicate Unambiguous(reg: Registry) {
    forall c, d :: (c in reg.tools && d in reg.tools && reg.tools[c].defaultAlias == reg.tools[d].defaultAlias
                    && Supplies(reg, c, reg.tools[c].defaultAlias) && Supplies(reg, d, reg.tools[d].defaultAlias))
                   ==> c == d
  }

  lemma AcceptedIsUnambiguous(reg: Registry)
    requires DefaultsOk(reg)
    ensures Unambiguous(reg)
  {
    forall c, d | c in reg.tools && d in reg.tools && reg.tools[c].defaultAlias == reg.tools[d].defaultAlias
      && Supplies(reg, c, reg.tools[c].defaultAlias) && Supplies(reg, d, reg.tools[d].defaultAlias)
      ensures c == d
    {
      SupplierUnique(reg, c, d, reg.tools[c].defaultAlias);
    }
  }

  /** A selected family has a version, and some tool with metadata names it. */
  lemma FamilyNamed(reg: Registry, family: string)
    requires DefaultsOk(reg) && family in reg.defaults
    ensures reg.defaults[family] != "" && family != ""
    ensures exists n :: n in reg.tools && HasMetadata(reg.tools[n]) && reg.tools[n].defaultFamily == family
  {
    assert FamilyOk(reg.tools, family, reg.defaults[family]);
    var aliases := AliasesOf(reg.tools, family, reg.defaults[family]);
    var a :| a in aliases;
    var n :| n in reg.tools && HasMetadata(reg.tools[n]) && reg.tools[n].defaultFamily == family
             && reg.tools[n].defaultVersion == reg.defaults[family];
    assert MetadataOk(reg.schema, reg.tools.Keys, reg.tools[n]);
  }

  lemma InvokableName(reg: Registry, n: string)
    ensures n in InvokableNames(reg) <==> n in reg.tools || exists c :: Supplies(reg, c, n)
  {
    if exists c :: Supplies(reg, c, n) {
      var c :| Supplies(reg, c, n);
      assert reg.tools[c].defaultAlias == n;
    }
  }

  /** Resolution succeeds exactly on the names that have shims. */
  lemma ResolvesExactlyToolNames(reg: Registry, name: string)
    ensures ResolveSpec(reg, name).Some? <==> Lower(name) in InvokableNames(reg)
  {
    InvokableName(reg, Lower(name));
  }

  /** Resolve, with both maps walked in arbitrary order. */
  method Resolve(reg: Registry, requested: string) returns (r: Option<(Tool, string)>)
    requires Unambiguous(reg)
    ensures r == ResolveSpec(reg, requested)
  {
    var name := Lower(requested);
    if name in reg.tools {
      return Some((reg.tools[name], name));
    }
    var concrete := ResolveAlias(reg, name);
    if concrete.None? { return None; }
    return Some((reg.tools[concrete.value].(name := name), concrete.value));
  }

  /** The two nested walks of Resolve. */
  method ResolveAlias(reg: Registry, name: string) returns (r: Option<string>)
    requires Unambiguous(reg)
    ensures match r
            case Some(c) => Supplies(reg, c, name) && forall d :: Supplies(reg, d, name) ==> d == c
            case None => forall c :: !Supplies(reg, c, name)
  {
    var families := reg.defaults.Keys;
    while families != {}
      invariant families <= reg.defaults.Keys
      invariant forall c :: Supplies(reg, c, name) ==> reg.tools[c].defaultFamily in families
      decreases |families|
    {
      var family :| family in families;
      var concretes := reg.tools.Keys;
      while concretes != {}
        invariant concretes <= reg.tools.Keys
        invariant forall c :: Supplies(reg, c, name) && reg.tools[c].defaultFamily == family ==> c in concretes
        decreases |concretes|
      {
        var concrete :| concrete in concretes;
        var t := reg.tools[concrete];
        if t.defaultFamily == family && t.defaultVersion == reg.defaults[family] && t.defaultAlias == name {
          return Some(concrete);
        }
        concretes := concretes - {concrete};
      }
      families := families - {family};
    }
    return None;
  }

  /** ToolNames: the sorted invokable names, whatever order the maps are walked in. */
  method ToolNames(reg: Registry) returns (names: seq<string>)
    ensures Enumerates(names, InvokableNames(reg))
  {
    var seen := reg.tools.Keys;
    var families := reg.defaults.Keys;
    while families != {}
      invariant families <= reg.defaults.Keys
      invariant forall n :: n in seen <==>
                  (n in reg.tools || exists c :: Supplies(reg, c, n) && reg.tools[c].defaultFamily !in families)
      decreases |families|
    {
      var family :| family in families;
      var supplied := set c | c in reg.tools && reg.tools[c].defaultFamily == family
                              && reg.tools[c].defaultVersion == reg.defaults[family] :: reg.tools[c].defaultAlias;
      forall n ensures n in supplied <==> exists c :: Supplies(reg, c, n) && reg.tools[c].defaultFamily == family {
        if n in supplied {
          var c :| c in reg.tools && reg.tools[c].defaultFamily == family
                   && reg.tools[c].defaultVersion == reg.defaults[family] && reg.tools[c].defaultAlias == n;
          assert Supplies(reg, c, n);
        }
      }
      seen := seen + supplied;
      families := families - {family};
    }
    forall n ensures n in seen <==> n in InvokableNames(reg) {
      if n in seen && n !in reg.tools {
        var c :| Supplies(reg, c, n) && reg.tools[c].defaultFamily !in families;
        assert reg.tools[c].defaultAlias == n;
      }
      if n in InvokableNames(reg) && n !in reg.tools {
        var c :| c in reg.tools && Supplies(reg, c, reg.tools[c].defaultAlias) && reg.tools[c].defaultAlias == n;
        assert Supplies(reg, c, n);
      }
    }
    assert seen == InvokableNames(reg);
    names := SortedElements(seen);
  }

  // ---------------------------------------------------------------- validation

  /** The groups of validateDefaults: family to version to alias to the tool supplying it. */
  type Groups = map<string, map<string, map<string, string>>>

  function Entry(groups: Groups, f: string, v: string, a: string): Option<string> {
    if f in groups && v in groups[f] && a in groups[f][v] then Some(groups[f][v][a]) else None
  }

  function AddEntry(groups: Groups, f: string, v: string, a: string, name: string): Groups {
    var versions := if f in groups then groups[f] else map[];
    var aliases := if v in versions then versions[v] else map[];
    groups[f := versions[v := aliases[a := name]]]
  }

  lemma EntryAdded(groups: Groups, f: string, v: string, a: string, name: string)
    ensures forall g, w, b :: Entry(AddEntry(groups, f, v, a, name), g, w, b) ==
                              if (g, w, b) == (f, v, a) then Some(name) else Entry(groups, g, w, b)
  {
  }

  /** No family without versions, no version without aliases. */
  predicate Populated(groups: Groups) {
    && (forall f :: f in groups ==> groups[f] != map[])
    && (forall f, v :: f in groups && v in groups[f] ==> groups[f][v] != map[])
  }

  predicate Labelled(t: Tool, f: string, v: string, a: string) {
    HasMetadata(t) && t.defaultFamily == f && t.defaultVersion == v && t.defaultAlias == a
  }

  /** The groups hold exactly the labelled tools among `seen`. */
  ghost predicate Grouped(tools: map<string, Tool>, seen: set<string>, groups: Groups) {
    && (forall n :: n in seen && n in tools && HasMetadata(tools[n]) ==>
          Entry(groups, tools[n].defaultFamily, tools[n].defaultVersion, tools[n].defaultAlias) == Some(n))
    && (forall f, v, a :: Entry(groups, f, v, a).Some? ==>
          var n := Entry(groups, f, v, a).value; n in seen && n in tools && Labelled(tools[n], f, v, a))
  }

  /** The alias-to-family map holds exactly the labels among `seen`. */
  ghost predicate FamiliesKnown(tools: map<string, Tool>, seen: set<string>, aliasFamilies: map<string, string>) {
    && (forall n :: n in seen && n in tools && HasMetadata(tools[n]) ==>
          tools[n].defaultAlias in aliasFamilies && aliasFamilies[tools[n].defaultAlias] == tools[n].defaultFamily)
    && (forall a :: a in aliasFamilies ==>
          exists n :: n in seen && n in tools && HasMetadata(tools[n]) && tools[n].defaultAlias == a)
  }

  /** What the first loop knows after the tools in `seen`. */
  ghost predicate Filed(tools: map<string, Tool>, seen: set<string>, groups: Groups, af: map<string, string>) {
    Grouped(tools, seen, groups) && Populated(groups) && FamiliesKnown(tools, seen, af)
  }

  lemma FileUnlabelled(tools: map<string, Tool>, seen: set<string>, groups: Groups, af: map<string, string>, name: string)
    requires Filed(tools, seen, groups, af) && name in tools && !HasMetadata(tools[name])
    ensures Filed(tools, seen + {name}, groups, af)
  {
  }

  lemma FileLabelled(tools: map<string, Tool>, seen: set<string>, groups: Groups, af: map<string, string>, name: string)
    requires Filed(tools, seen, groups, af) && name in tools && name !in seen && HasMetadata(tools[name])
    requires var t := tools[name]; Entry(groups, t.defaultFamily, t.defaultVersion, t.defaultAlias).None?
    requires var t := tools[name]; t.defaultAlias in af ==> af[t.defaultAlias] == t.defaultFamily
    ensures var t := tools[name];
            Filed(tools, seen + {name}, AddEntry(groups, t.defaultFamily, t.defaultVersion, t.defaultAlias, name),
                  af[t.defaultAlias := t.defaultFamily])
  {
    var t := tools[name];
    GroupLabelled(tools, seen, groups, name);
    AddedPopulated(groups, t.defaultFamily, t.defaultVersion, t.defaultAlias, name);
    FamilyKnown(tools, seen, af, name);
  }

  lemma GroupLabelled(tools: map<string, Tool>, seen: set<string>, groups: Groups, name: string)
    requires Grouped(tools, seen, groups) && name in tools && name !in seen && HasMetadata(tools[name])
    requires var t := tools[name]; Entry(groups, t.defaultFamily, t.defaultVersion, t.defaultAlias).None?
    ensures var t := tools[name];
            Grouped(tools, seen + {name}, AddEntry(groups, t.defaultFamily, t.defaultVersion, t.defaultAlias, name))
  {
    var t := tools[name];
    EntryAdded(groups, t.defaultFamily, t.defaultVersion, t.defaultAlias, name);
  }

  lemma AddedPopulated(groups: Groups, f: string, v: string, a: string, name: string)
    requires Populated(groups)
    ensures Populated(AddEntry(groups, f, v, a, name))
  {
    var added := AddEntry(groups, f, v, a, name);
    assert a in added[f][v];
    forall g, w | g in added && w in added[g] ensures added[g][w] != map[] {
      if (g, w) != (f, v) { assert g in groups && w in groups[g] && added[g][w] == groups[g][w]; }
    }
  }

  lemma FamilyKnown(tools: map<string, Tool>, seen: set<string>, af: map<string, string>, name: string)
    requires FamiliesKnown(tools, seen, af) && name in tools && HasMetadata(tools[name])
    requires var t := tools[name]; t.defaultAlias in af ==> af[t.defaultAlias] == t.defaultFamily
    ensures FamiliesKnown(tools, seen + {name}, af[tools[name].defaultAlias := tools[name].defaultFamily])
  {
  }

  /** Either refusal of the first loop names a tool already filed that conflicts with the new one. */
  lemma FilingConflict(reg: Registry, seen: set<string>, groups: Groups, af: map<string, string>, name: string)
    requires Filed(reg.tools, seen, groups, af) && name in reg.tools && name !in seen && HasMetadata(reg.tools[name])
    requires var t := reg.tools[name];
             || (t.defaultAlias in af && af[t.defaultAlias] != t.defaultFamily)
             || Entry(groups, t.defaultFamily, t.defaultVersion, t.defaultAlias).Some?
    ensures exists n :: n in reg.tools && n != name && !Compatible(reg.tools[n], reg.tools[name])
  {
    var t := reg.tools[name];
    var previous := Entry(groups, t.defaultFamily, t.defaultVersion, t.defaultAlias);
    if previous.Some? {
      assert !Compatible(reg.tools[previous.value], t);
    } else {
      var n :| n in seen && n in reg.tools && HasMetadata(reg.tools[n]) && reg.tools[n].defaultAlias == t.defaultAlias;
      assert !Compatible(reg.tools[n], t);
    }
  }

  /** Once every tool is filed, no two tools conflict. */
  lemma GroupedMeansCompatible(tools: map<string, Tool>, groups: Groups, af: map<string, string>)
    requires Grouped(tools, tools.Keys, groups) && FamiliesKnown(tools, tools.Keys, af)
    ensures forall n, m :: n in tools && m in tools && n != m ==> Compatible(tools[n], tools[m])
  {
  }

  /** The checks of the first loop on one tool's metadata. */
  method CheckMetadata(schema: nat, tools: map<string, Tool>, t: Tool) returns (ok: bool)
    requires HasMetadata(t)
    ensures ok <==> MetadataOk(schema, tools.Keys, t)
  {
    if schema < 2 { return false; }
    if t.defaultFamily == "" || t.defaultVersion == "" || t.defaultAlias == "" { return false; }
    if !ValidToolName(t.defaultFamily) || !ValidVersion(t.defaultVersion)
       || !ValidToolName(t.defaultAlias) || ReservedToolName(t.defaultAlias) { return false; }
    return t.defaultAlias !in tools;
  }

  /** The first loop: one tool at a time, in arbitrary order. */
  method GroupTools(reg: Registry) returns (ok: bool, groups: Groups)
    ensures ok <==> ToolsLabelled(reg)
    ensures ok ==> Grouped(reg.tools, reg.tools.Keys, groups) && Populated(groups)
  {
    groups := map[];
    var aliasFamilies: map<string, string> := map[];
    var todo := reg.tools.Keys;
    ghost var seen: set<string> := {};
    while todo != {}
      invariant todo <= reg.tools.Keys && seen == reg.tools.Keys - todo
      invariant Filed(reg.tools, seen, groups, aliasFamilies)
      invariant forall n :: n in seen ==> MetadataOk(reg.schema, reg.tools.Keys, reg.tools[n])
      decreases |todo|
    {
      var name :| name in todo;
      var t := reg.tools[name];
      todo := todo - {name};
      ghost var before := seen;
      seen := seen + {name};
      if t.defaultFamily == "" && t.defaultVersion == "" && t.defaultAlias == "" {
        FileUnlabelled(reg.tools, before, groups, aliasFamilies, name);
        continue;
      }
      var valid := CheckMetadata(reg.schema, reg.tools, t);
      if !valid { return false, groups; }
      if t.defaultAlias in aliasFamilies && aliasFamilies[t.defaultAlias] != t.defaultFamily {
        FilingConflict(reg, before, groups, aliasFamilies, name);
        return false, groups;
      }
      if Entry(groups, t.defaultFamily, t.defaultVersion, t.defaultAlias).Some? {
        FilingConflict(reg, before, groups, aliasFamilies, name);
        return false, groups;
      }
      FileLabelled(reg.tools, before, groups, aliasFamilies, name);
      aliasFamilies := aliasFamilies[t.defaultAlias := t.defaultFamily];
      groups := AddEntry(groups, t.defaultFamily, t.defaultVersion, t.defaultAlias, name);
    }
    GroupedMeansCompatible(reg.tools, groups, aliasFamilies);
    ok := true;
  }

  lemma GroupedEntry(tools: map<string, Tool>, groups: Groups, n: string)
    requires Grouped(tools, tools.Keys, groups) && n in tools && HasMetadata(tools[n])
    ensures Entry(groups, tools[n].defaultFamily, tools[n].defaultVersion, tools[n].defaultAlias) == Some(n)
  {
  }

  lemma GroupKeys(tools: map<string, Tool>, groups: Groups, f: string, v: string)
    requires Grouped(tools, tools.Keys, groups)
    ensures forall a :: a in AliasesOf(tools, f, v) <==> Entry(groups, f, v, a).Some?
  {
    forall a ensures a in AliasesOf(tools, f, v) <==> Entry(groups, f, v, a).Some? {
      if a in AliasesOf(tools, f, v) {
        var n :| n in tools && HasMetadata(tools[n]) && tools[n].defaultFamily == f
                 && tools[n].defaultVersion == v && tools[n].defaultAlias == a;
        GroupedEntry(tools, groups, n);
      }
      if Entry(groups, f, v, a).Some? {
        assert Labelled(tools[Entry(groups, f, v, a).value], f, v, a);
      }
    }
  }

  lemma GroupSet(tools: map<string, Tool>, groups: Groups, f: string, v: string)
    requires Grouped(tools, tools.Keys, groups) && Populated(groups)
    ensures f in groups && v in groups[f] <==> AliasesOf(tools, f, v) != {}
    ensures f in groups && v in groups[f] ==> groups[f][v].Keys == AliasesOf(tools, f, v)
  {
    GroupKeys(tools, groups, f, v);
    if AliasesOf(tools, f, v) != {} {
      var a :| a in AliasesOf(tools, f, v);
      assert Entry(groups, f, v, a).Some?;
    }
    if f in groups && v in groups[f] {
      assert forall a :: a in groups[f][v] <==> Entry(groups, f, v, a).Some?;
      var a :| a in groups[f][v];
      assert a in AliasesOf(tools, f, v);
    }
  }

  /** The inner walks over one family's versions and the selected version's aliases. */
  method CheckFamily(versions: map<string, map<string, string>>, selected: string) returns (ok: bool)
    requires selected in versions
    ensures ok <==> forall v :: v in versions ==> versions[v].Keys == versions[selected].Keys
  {
    var todo := versions.Keys;
    while todo != {}
      invariant todo <= versions.Keys
      invariant forall v :: v in versions && v !in todo ==> versions[v].Keys == versions[selected].Keys
      decreases |todo|
    {
      var version :| version in todo;
      var aliases := versions[version];
      if |aliases| != |versions[selected]| { return false; }
      var wanted := versions[selected].Keys;
      while wanted != {}
        invariant wanted <= versions[selected].Keys
        invariant forall a :: a in versions[selected] && a !in wanted ==> a in aliases
        decreases |wanted|
      {
        var alias :| alias in wanted;
        if alias !in aliases { return false; }
        wanted := wanted - {alias};
      }
      SameSize(versions[selected].Keys, aliases.Keys);
      todo := todo - {version};
    }
    return true;
  }

  lemma SameSize(a: set<string>, b: set<string>)
    requires a <= b && |a| == |b|
    ensures a == b
  {
    assert b == a + (b - a);
    assert |b| == |a| + |b - a|;
  }

  /** The versions of a family are those of its labelled tools. */
  lemma GroupVersions(tools: map<string, Tool>, groups: Groups, f: string)
    requires Grouped(tools, tools.Keys, groups) && Populated(groups)
    ensures forall n :: n in tools && HasMetadata(tools[n]) && tools[n].defaultFamily == f ==>
              f in groups && tools[n].defaultVersion in groups[f]
    ensures f in groups ==> forall v :: v in groups[f] ==>
              exists n :: n in tools && HasMetadata(tools[n]) && tools[n].defaultFamily == f && tools[n].defaultVersion == v
  {
    forall n | n in tools && HasMetadata(tools[n]) && tools[n].defaultFamily == f
      ensures f in groups && tools[n].defaultVersion in groups[f]
    {
      assert Entry(groups, f, tools[n].defaultVersion, tools[n].defaultAlias).Some?;
    }
    if f in groups {
      forall v | v in groups[f]
        ensures exists n :: n in tools && HasMetadata(tools[n]) && tools[n].defaultFamily == f && tools[n].defaultVersion == v
      {
        var a :| a in groups[f][v];
        assert Labelled(tools[Entry(groups, f, v, a).value], f, v, a);
      }
    }
  }

  /** A family's verdict, read off the groups. */
  lemma FamilyVerdict(tools: map<string, Tool>, groups: Groups, family: string, selected: string)
    requires Grouped(tools, tools.Keys, groups) && Populated(groups) && selected != ""
    ensures FamilyOk(tools, family, selected) <==>
            && family in groups && selected in groups[family]
            && forall v :: v in groups[family] ==> groups[family][v].Keys == groups[family][selected].Keys
  {
    GroupSet(tools, groups, family, selected);
    GroupVersions(tools, groups, family);
    if family in groups && selected in groups[family] {
      forall v | v in groups[family] ensures groups[family][v].Keys == AliasesOf(tools, family, v) {
        GroupSet(tools, groups, family, v);
      }
    }
  }

  /** The second loop: every selected family. */
  method CheckFamilies(reg: Registry, groups: Groups) returns (ok: bool)
    requires Grouped(reg.tools, reg.tools.Keys, groups) && Populated(groups)
    ensures ok <==> FamiliesOk(reg)
  {
    var families := reg.defaults.Keys;
    while families != {}
      invariant families <= reg.defaults.Keys
      invariant forall f :: f in reg.defaults && f !in families ==> FamilyOk(reg.tools, f, reg.defaults[f])
      decreases |families|
    {
      var family :| family in families;
      var selected := reg.defaults[family];
      if selected == "" { assert !FamilyOk(reg.tools, family, selected); return false; }
      FamilyVerdict(reg.tools, groups, family, selected);
      if family !in groups || selected !in groups[family] { return false; }
      var same := CheckFamily(groups[family], selected);
      if !same { return false; }
      families := families - {family};
    }
    return true;
  }

  lemma DeclaredVerdict(reg: Registry, groups: Groups)
    requires Grouped(reg.tools, reg.tools.Keys, groups) && Populated(groups)
    ensures FamiliesDeclared(reg) <==> groups.Keys <= reg.defaults.Keys
  {
    forall n | n in reg.tools && HasMetadata(reg.tools[n]) ensures reg.tools[n].defaultFamily in groups {
      GroupVersions(reg.tools, groups, reg.tools[n].defaultFamily);
    }
    forall f | f in groups
      ensures exists n :: n in reg.tools && HasMetadata(reg.tools[n]) && reg.tools[n].defaultFamily == f
    {
      GroupVersions(reg.tools, groups, f);
      var v :| v in groups[f];
    }
  }

  /** The third loop: every family with profiles is declared. */
  method CheckDeclared(groups: Groups, defaults: map<string, string>) returns (ok: bool)
    ensures ok <==> groups.Keys <= defaults.Keys
  {
    var families := groups.Keys;
    while families != {}
      invariant families <= groups.Keys
      invariant forall f :: f in groups && f !in families ==> f in defaults
      decreases |families|
    {
      var family :| family in families;
      if family !in defaults { return false; }
      families := families - {family};
    }
    return true;
  }

  /** validateDefaults: its verdict is DefaultsOk, whatever order the maps are walked in. */
  method ValidateDefaults(reg: Registry) returns (ok: bool)
    ensures ok <==> DefaultsOk(reg)
  {
    var grouped, groups := GroupTools(reg);
    if !grouped { return false; }
    if reg.schema < 2 && reg.defaults != map[] { return false; }
    var families := CheckFamilies(reg, groups);
    if !families { return false; }
    DeclaredVerdict(reg, groups);
    ok := CheckDeclared(groups, reg.defaults);
  }

  // ---------------------------------------------------------------- switching a selection

  /** The versions and aliases a family offers (DefaultInfo). */
  function VersionsOf(reg: Registry, family: string): set<string> {
    set n | n in reg.tools && reg.tools[n].defaultFamily == family :: reg.tools[n].defaultVersion
  }

  function FamilyAliases(reg: Registry, family: string): set<string> {
    set n | n in reg.tools && reg.tools[n].defaultFamily == family :: reg.tools[n].defaultAlias
  }

  datatype Info = Info(family: string, selected: string, versions: seq<string>, aliases: seq<string>)

  method DefaultInfo(reg: Registry, requested: string) returns (r: Option<Info>)
    ensures r.Some? <==> Lower(requested) in reg.defaults
    ensures r.Some? ==>
              && r.value.family == Lower(requested) && r.value.selected == reg.defaults[Lower(requested)]
              && Enumerates(r.value.versions, VersionsOf(reg, Lower(requested)))
              && Enumerates(r.value.aliases, FamilyAliases(reg, Lower(requested)))
  {
    var family := Lower(requested);
    if family !in reg.defaults { return None; }
    var versionsSet, aliasesSet: set<string> := {}, {};
    var todo := reg.tools.Keys;
    while todo != {}
      invariant todo <= reg.tools.Keys
      invariant versionsSet == set n | n in reg.tools.Keys - todo && reg.tools[n].defaultFamily == family :: reg.tools[n].defaultVersion
      invariant aliasesSet == set n | n in reg.tools.Keys - todo && reg.tools[n].defaultFamily == family :: reg.tools[n].defaultAlias
      decreases |todo|
    {
      var n :| n in todo;
      if reg.tools[n].defaultFamily == family {
        versionsSet := versionsSet + {reg.tools[n].defaultVersion};
        aliasesSet := aliasesSet + {reg.tools[n].defaultAlias};
      }
      todo := todo - {n};
    }
    assert versionsSet == VersionsOf(reg, family) && aliasesSet == FamilyAliases(reg, family);
    var versions := SortedElements(versionsSet);
    var aliases := SortedElements(aliasesSet);
    return Some(Info(family, reg.defaults[family], versions, aliases));
  }

  function Switch(reg: Registry, family: string, version: string): Registry {
    reg.(defaults := reg.defaults[family := version])
  }

  /** In an accepted registry every configured version of a family supplies the selected aliases. */
  lemma VersionsAgree(reg: Registry, family: string, version: string)
    requires DefaultsOk(reg) && family in reg.defaults && version in VersionsOf(reg, family)
    ensures family != "" && ValidVersion(version)
    ensures AliasesOf(reg.tools, family, version) == AliasesOf(reg.tools, family, reg.defaults[family]) != {}
  {
    FamilyNamed(reg, family);
    var n :| n in reg.tools && reg.tools[n].defaultFamily == family && reg.tools[n].defaultVersion == version;
    assert HasMetadata(reg.tools[n]) && MetadataOk(reg.schema, reg.tools.Keys, reg.tools[n]);
    assert FamilyOk(reg.tools, family, reg.defaults[family]);
  }

  /** Selecting another configured version of a family keeps the registry acceptable. */
  lemma SwitchKeepsDefaults(reg: Registry, family: string, version: string)
    requires DefaultsOk(reg) && family in reg.defaults && version in VersionsOf(reg, family)
    ensures DefaultsOk(Switch(reg, family, version))
  {
    VersionsAgree(reg, family, version);
    assert FamilyOk(reg.tools, family, reg.defaults[family]);
    assert FamilyOk(reg.tools, family, version);
  }

  /** ... and every shim name: the aliases now have other suppliers, but they are the same aliases. */
  lemma SwitchKeepsNames(reg: Registry, family: string, version: string)
    requires DefaultsOk(reg) && family in reg.defaults && version in VersionsOf(reg, family)
    ensures InvokableNames(Switch(reg, family, version)) == InvokableNames(reg)
  {
    VersionsAgree(reg, family, version);
    SwitchFrame(reg, family, version);
    SameAliasesSameNames(reg, Switch(reg, family, version), family);
  }

  lemma SwitchFrame(reg: Registry, family: string, version: string)
    ensures Switch(reg, family, version).defaults - {family} == reg.defaults - {family}
  {
  }

  lemma SameAliasesSameNames(reg: Registry, reg': Registry, family: string)
    requires reg'.tools == reg.tools && family != "" && family in reg.defaults && family in reg'.defaults
    requires reg.defaults - {family} == reg'.defaults - {family}
    requires AliasesOf(reg.tools, family, reg.defaults[family]) == AliasesOf(reg.tools, family, reg'.defaults[family])
    ensures InvokableNames(reg') == InvokableNames(reg)
  {
    forall f | f != family ensures f in reg.defaults <==> f in reg'.defaults
                           ensures f in reg.defaults ==> reg.defaults[f] == reg'.defaults[f]
    {
      assert f in reg.defaults - {family} <==> f in reg.defaults;
      assert f in reg'.defaults - {family} <==> f in reg'.defaults;
      assert f in reg.defaults ==> (reg.defaults - {family})[f] == reg.defaults[f];
    }
    forall name ensures name in InvokableNames(reg) <==> name in InvokableNames(reg') {
      InvokableName(reg, name);
      InvokableName(reg', name);
      SupplierMoves(reg, reg', family, name);
      SupplierMoves(reg', reg, family, name);
    }
  }

  lemma SupplierMoves(reg: Registry, reg': Registry, family: string, name: string)
    requires reg'.tools == reg.tools && family != ""
    requires family in reg.defaults && family in reg'.defaults
    requires forall f :: f in reg.defaults && f != family ==> f in reg'.defaults && reg'.defaults[f] == reg.defaults[f]
    requires AliasesOf(reg.tools, family, reg.defaults[family]) == AliasesOf(reg.tools, family, reg'.defaults[family])
    ensures (exists c :: Supplies(reg, c, name)) ==> exists c :: Supplies(reg', c, name)
  {
    if exists c :: Supplies(reg, c, name) {
      var c :| Supplies(reg, c, name);
      if reg.tools[c].defaultFamily == family {
        assert HasMetadata(reg.tools[c]);
        assert name in AliasesOf(reg.tools, family, reg.defaults[family]);
        var d :| d in reg.tools && HasMetadata(reg.tools[d]) && reg.tools[d].defaultFamily == family
                 && reg.tools[d].defaultVersion == reg'.defaults[family] && reg.tools[d].defaultAlias == name;
        assert Supplies(reg', d, name);
      } else {
        assert Supplies(reg', c, name);
      }
    }
  }

  // ---------------------------------------------------------------- the project overlay

  /** What a loaded overlay is known to satisfy: it parsed, declares no defaults and no
      alias metadata, and none of the capabilities an overlay may not use. */
  predicate OverlayOk(overlay: Registry) {
    && overlay.defaults == map[]
    && forall n :: n in overlay.tools ==> MayContribute(overlay.tools[n])
  }

  predicate MayContribute(t: Tool) {
    !HasMetadata(t) && t.provider != "python" && t.hostMounts == [] && t.envPrefixes == [] && t.sharedVolumes == []
  }

  /** validateOverlay: the loop over the tools, in any order. */
  method ValidateOverlay(overlay: Registry) returns (ok: bool)
    ensures ok <==> OverlayOk(overlay)
  {
    if |overlay.defaults| != 0 { return false; }
    var todo := overlay.tools.Keys;
    while todo != {}
      invariant todo <= overlay.tools.Keys
      invariant forall n :: n in overlay.tools && n !in todo ==> MayContribute(overlay.tools[n])
      decreases |todo|
    {
      var name :| name in todo;
      var t := overlay.tools[name];
      if t.defaultFamily != "" || t.defaultVersion != "" || t.defaultAlias != "" { return false; }
      if t.provider == "python" { return false; }
      if |t.hostMounts| != 0 { return false; }
      if |t.envPrefixes| != 0 { return false; }
      if |t.sharedVolumes| != 0 { return false; }
      todo := todo - {name};
    }
    return true;
  }

  /** A contributed tool may not reach beyond the approved overlay root. */
  function Bounded(t: Tool, root: string): Tool {
    t.(trustedProjectRoot := root)
  }

  /** The tools an overlay contributes, bounded to its root. */
  function Contribution(overlay: Registry, names: set<string>, root: string): map<string, Tool> {
    map n | n in names && n in overlay.tools :: Bounded(overlay.tools[n], root)
  }

  function Merged(global: Registry, overlay: Registry, root: string): Registry {
    global.(tools := global.tools + Contribution(overlay, overlay.tools.Keys, root))
  }

  /** The names of an overlay are lower case, as the parser leaves them. */
  predicate LowerNames(overlay: Registry) {
    forall n :: n in overlay.tools ==> Lower(n) == n
  }

  method Answers(reg: Registry, name: string) returns (known: bool)
    requires Unambiguous(reg)
    ensures known <==> Lower(name) in InvokableNames(reg)
  {
    ResolvesExactlyToolNames(reg, name);
    var r := Resolve(reg, name);
    return r.Some?;
  }

  /** Merge: add-only, refusing any name the global registry already answers to. The copy of
      the contributed tools, which the source makes in the same walk, is one map expression. */
  method Merge(global: Registry, overlay: Registry, root: string) returns (r: Option<Registry>)
    requires Unambiguous(global) && LowerNames(overlay)
    ensures r == if overlay.tools.Keys !! InvokableNames(global) then Some(Merged(global, overlay, root)) else None
  {
    var todo := overlay.tools.Keys;
    while todo != {}
      invariant todo <= overlay.tools.Keys
      invariant forall n :: n in overlay.tools && n !in todo ==> n !in InvokableNames(global)
      decreases |todo|
    {
      var name :| name in todo;
      var taken := Answers(global, name);
      if taken {
        assert name in overlay.tools.Keys * InvokableNames(global);
        return None;
      }
      todo := todo - {name};
    }
    return Some(Merged(global, overlay, root));
  }

  lemma MergedSuppliers(global: Registry, overlay: Registry, root: string, c: string, n: string)
    requires OverlayOk(overlay) && "" !in global.defaults && overlay.tools.Keys !! InvokableNames(global)
    ensures Supplies(Merged(global, overlay, root), c, n) <==> Supplies(global, c, n)
  {
    InvokableName(global, c);
    if c in overlay.tools { assert !HasMetadata(overlay.tools[c]); }
  }

  lemma NoEmptyFamily(reg: Registry)
    requires DefaultsOk(reg)
    ensures "" !in reg.defaults
  {
    if "" in reg.defaults { FamilyNamed(reg, ""); }
  }

  /** A merge keeps every global resolution, adds exactly the overlay's names, and the
      overlay's own tools resolve to themselves. */
  lemma MergeKeepsResolution(global: Registry, overlay: Registry, root: string, name: string)
    requires DefaultsOk(global) && OverlayOk(overlay) && overlay.tools.Keys !! InvokableNames(global)
    ensures Lower(name) in InvokableNames(global) ==>
              ResolveSpec(Merged(global, overlay, root), name) == ResolveSpec(global, name)
    ensures Lower(name) in overlay.tools ==>
              ResolveSpec(Merged(global, overlay, root), name) ==
              Some((overlay.tools[Lower(name)].(trustedProjectRoot := root), Lower(name)))
    ensures InvokableNames(Merged(global, overlay, root)) == InvokableNames(global) + overlay.tools.Keys
  {
    NoEmptyFamily(global);
    AcceptedIsUnambiguous(global);
    MergedNames(global, overlay, root);
    MergedResolve(global, overlay, root, name);
  }

  lemma MergedNames(global: Registry, overlay: Registry, root: string)
    requires OverlayOk(overlay) && "" !in global.defaults && overlay.tools.Keys !! InvokableNames(global)
    ensures InvokableNames(Merged(global, overlay, root)) == InvokableNames(global) + overlay.tools.Keys
  {
    var merged := Merged(global, overlay, root);
    forall n ensures n in InvokableNames(merged) <==> n in InvokableNames(global) || n in overlay.tools {
      InvokableName(merged, n);
      InvokableName(global, n);
      forall c ensures Supplies(merged, c, n) <==> Supplies(global, c, n) {
        MergedSuppliers(global, overlay, root, c, n);
      }
    }
  }

  lemma MergedResolve(global: Registry, overlay: Registry, root: string, name: string)
    requires OverlayOk(overlay) && "" !in global.defaults && overlay.tools.Keys !! InvokableNames(global)
    requires Unambiguous(global)
    ensures Lower(name) in InvokableNames(global) ==>
              ResolveSpec(Merged(global, overlay, root), name) == ResolveSpec(global, name)
    ensures Lower(name) in overlay.tools ==>
              ResolveSpec(Merged(global, overlay, root), name) ==
              Some((Bounded(overlay.tools[Lower(name)], root), Lower(name)))
  {
    var n := Lower(name);
    InvokableName(global, n);
    if n in InvokableNames(global) && n !in global.tools {
      var merged := Merged(global, overlay, root);
      forall c ensures Supplies(merged, c, n) <==> Supplies(global, c, n) {
        MergedSuppliers(global, overlay, root, c, n);
      }
      var c :| Supplies(global, c, n);
      assert forall d :: Supplies(global, d, n) ==> d == c;
      InvokableName(global, c);
      assert merged.tools[c] == global.tools[c];
    }
  }

  lemma MergeKeepsDefaults(global: Registry, overlay: Registry, root: string)
    requires DefaultsOk(global) && OverlayOk(overlay)
    requires overlay.tools.Keys !! InvokableNames(global)
    ensures DefaultsOk(Merged(global, overlay, root))
  {
    var merged := Merged(global, overlay, root);
    MergedTools(global, overlay, root);
    forall n | n in global.tools && HasMetadata(global.tools[n])
      ensures global.tools[n].defaultAlias !in merged.tools.Keys
    {
      AliasIsInvokable(global, n);
      assert MetadataOk(global.schema, global.tools.Keys, global.tools[n]);
    }
    AddUnlabelled(global, merged);
  }

  /** A merge leaves every global tool as it is and adds tools without labels. */
  lemma MergedTools(global: Registry, overlay: Registry, root: string)
    requires OverlayOk(overlay) && overlay.tools.Keys !! InvokableNames(global)
    ensures var merged := Merged(global, overlay, root);
            && merged.schema == global.schema && merged.defaults == global.defaults
            && (forall n :: n in global.tools ==> n in merged.tools && merged.tools[n] == global.tools[n])
            && (forall n :: n in merged.tools && n !in global.tools ==> !HasMetadata(merged.tools[n]))
  {
    forall n | n in global.tools ensures n !in overlay.tools { InvokableName(global, n); }
  }

  /** Tools without labels change nothing for the alias rules, unless they take an alias's name. */
  lemma AddUnlabelled(reg: Registry, more: Registry)
    requires DefaultsOk(reg) && more.schema == reg.schema && more.defaults == reg.defaults
    requires forall n :: n in reg.tools ==> n in more.tools && more.tools[n] == reg.tools[n]
    requires forall n :: n in more.tools && n !in reg.tools ==> !HasMetadata(more.tools[n])
    requires forall n :: n in reg.tools && HasMetadata(reg.tools[n]) ==> reg.tools[n].defaultAlias !in more.tools.Keys
    ensures DefaultsOk(more)
  {
    forall f | f in more.defaults ensures FamilyOk(more.tools, f, more.defaults[f]) {
      assert FamilyOk(reg.tools, f, reg.defaults[f]);
      FamilyStays(reg.tools, more.tools, f, reg.defaults[f]);
    }
    assert ToolsLabelled(more) by { LabelsStay(reg, more); }
  }

  lemma FamilyStays(tools: map<string, Tool>, more: map<string, Tool>, f: string, selected: string)
    requires FamilyOk(tools, f, selected)
    requires forall n :: n in tools ==> n in more && more[n] == tools[n]
    requires forall n :: n in more && n !in tools ==> !HasMetadata(more[n])
    ensures FamilyOk(more, f, selected)
  {
    forall v ensures AliasesOf(more, f, v) == AliasesOf(tools, f, v) { }
  }

  lemma LabelsStay(reg: Registry, more: Registry)
    requires ToolsLabelled(reg) && more.schema == reg.schema
    requires forall n :: n in reg.tools ==> n in more.tools && more.tools[n] == reg.tools[n]
    requires forall n :: n in more.tools && n !in reg.tools ==> !HasMetadata(more.tools[n])
    requires forall n :: n in reg.tools && HasMetadata(reg.tools[n]) ==> reg.tools[n].defaultAlias !in more.tools.Keys
    ensures ToolsLabelled(more)
  {
    forall n | n in more.tools && HasMetadata(more.tools[n]) ensures MetadataOk(more.schema, more.tools.Keys, more.tools[n]) {
      assert MetadataOk(reg.schema, reg.tools.Keys, reg.tools[n]);
    }
    forall n, k | n in more.tools && k in more.tools && n != k ensures Compatible(more.tools[n], more.tools[k]) {
      if n in reg.tools && k in reg.tools { assert Compatible(reg.tools[n], reg.tools[k]); }
    }
  }

  /** Every declared alias, of whatever version, is an invokable name: all versions of a
      family supply the aliases the selected one does. */
  lemma AliasIsInvokable(reg: Registry, n: string)
    requires DefaultsOk(reg) && n in reg.tools && HasMetadata(reg.tools[n])
    ensures reg.tools[n].defaultAlias in InvokableNames(reg)
  {
    var t := reg.tools[n];
    assert t.defaultFamily in reg.defaults;
    assert FamilyOk(reg.tools, t.defaultFamily, reg.defaults[t.defaultFamily]);
    assert t.defaultAlias in AliasesOf(reg.tools, t.defaultFamily, t.defaultVersion);
    var d :| d in reg.tools && HasMetadata(reg.tools[d]) && reg.tools[d].defaultFamily == t.defaultFamily
             && reg.tools[d].defaultVersion == reg.defaults[t.defaultFamily] && reg.tools[d].defaultAlias == t.defaultAlias;
    assert Supplies(reg, d, t.defaultAlias);
    InvokableName(reg, t.defaultAlias);
  }
}
