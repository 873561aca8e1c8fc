/**
 * Merge restore: each imported object is added under a fresh name beside the
 * local ones. Rule groups are files, the other sections are lists.
 */
module MergeRestore {
  import opened Common
  import opened ImportedNames

  /** A named object and everything else it says. */
  datatype Item = Item(name: string, body: string)

  function NamesOf(items: seq<Item>): set<string> {
    set item | item in items :: item.name
  }

  predicate AllNamed(items: seq<Item>) {
    forall i :: 0 <= i < |items| ==> ValidName(items[i].name)
  }

  /** The imported objects under their new names. */
  function Renamed(items: seq<Item>, names: seq<string>): seq<Item>
    requires |names| == |items|
  {
    seq(|items|, i requires 0 <= i < |items| => Item(names[i], items[i].body))
  }

  /** No two new names are equal, and none is already in use. */
  predicate Fresh(names: seq<string>, existing: set<string>) {
    Distinct(names) && forall i :: 0 <= i < |names| ==> names[i] !in existing
  }

  /** Each name is the first free one, given the names in use and those assigned before it. */
  ghost predicate Assigned(items: seq<Item>, names: seq<string>, existing: set<string>, ts: string) {
    |names| == |items| && forall i :: 0 <= i < |items| ==> Picks(Candidates(items[i].name, ts), existing + Elements(names[..i]), names[i])
  }

  /** The local items in order, then each imported one once, under its assigned fresh name. */
  ghost predicate Appended(local: seq<Item>, imported: seq<Item>, ts: string, merged: seq<Item>) {
    exists names :: Assigned(imported, names, NamesOf(local), ts) && Fresh(names, NamesOf(local)) && merged == local + Renamed(imported, names)
  }

  /** No local item is lost or changed, each imported one appears once with its own contents, and no new name was in use. */
  ghost predicate AddedBeside(local: seq<Item>, imported: seq<Item>, merged: seq<Item>) {
    && |merged| == |local| + |imported| && merged[..|local|] == local
    && (forall i :: 0 <= i < |imported| ==> merged[|local| + i].body == imported[i].body)
    && (forall i, j :: 0 <= i < j < |merged| && |local| <= j ==> merged[i].name != merged[j].name)
  }

  lemma RenamedBeside(local: seq<Item>, imported: seq<Item>, names: seq<string>)
    requires |names| == |imported| && Fresh(names, NamesOf(local))
    ensures AddedBeside(local, imported, local + Renamed(imported, names))
  {
    var merged := local + Renamed(imported, names);
    forall i, j | 0 <= i < j < |merged| && |local| <= j ensures merged[i].name != merged[j].name {
      assert merged[j].name == names[j - |local|];
      if i < |local| {
        assert local[i] in local && merged[i].name in NamesOf(local);
      } else {
        assert merged[i].name == names[i - |local|];
      }
    }
  }

  lemma AppendedMeans(local: seq<Item>, imported: seq<Item>, ts: string, merged: seq<Item>)
    requires Appended(local, imported, ts, merged)
    ensures AddedBeside(local, imported, merged)
  {
    hide Picks, Fresh, NamesOf, Renamed, AddedBeside;
    var names :| Assigned(imported, names, NamesOf(local), ts) && Fresh(names, NamesOf(local)) && merged == local + Renamed(imported, names);
    RenamedBeside(local, imported, names);
  }

  lemma FreshSnoc(names: seq<string>, existing: set<string>, name: string)
    requires Fresh(names, existing) && name !in existing && name !in names
    ensures Fresh(names + [name], existing)
    ensures Elements(names + [name]) == Elements(names) + {name}
  {
  }

  lemma AssignedSnoc(items: seq<Item>, names: seq<string>, existing: set<string>, ts: string, i: nat, name: string)
    requires i < |items| && Assigned(items[..i], names, existing, ts)
    requires Picks(Candidates(items[i].name, ts), existing + Elements(names), name)
    ensures Assigned(items[..i + 1], names + [name], existing, ts)
  {
    hide Picks;
    var all := names + [name];
    forall j | 0 <= j <= i ensures Picks(Candidates(items[j].name, ts), existing + Elements(all[..j]), all[j]) {
      if j < i {
        assert all[..j] == names[..j] && items[..i][j] == items[j];
      } else {
        assert all[..j] == names;
      }
    }
  }

  lemma RenamedSnoc(items: seq<Item>, names: seq<string>, i: nat, name: string)
    requires i < |items| && |names| == i
    ensures Renamed(items[..i + 1], names + [name]) == Renamed(items[..i], names) + [Item(name, items[i].body)]
  {
  }

  /**
   * One round of the merge loop: the next name, kept apart from the local names
   * and from all names given out so far.
   */
  method NextName(items: seq<Item>, i: nat, existing: set<string>, ghost local: set<string>,
      ghost names: seq<string>, ts: string)
    returns (r: Result<string, ()>)
    requires i < |items| && AllNamed(items) && IsTimestamp(ts)
    requires existing == local + Elements(names) && Fresh(names, local) && Assigned(items[..i], names, local, ts)
    ensures r.Ok? ==> Fresh(names + [r.value], local) && Assigned(items[..i + 1], names + [r.value], local, ts)
    ensures r.Ok? ==> existing + {r.value} == local + Elements(names + [r.value]) && r.value !in existing
    ensures r.Err? ==> |existing| + 2 >= PowerOfTen(47)
  {
    hide Candidate, PowerOfTen, Assigned, Fresh, Picks;
    assert ValidName(items[i].name);
    r := UniqueTimestampedName(items[i].name, existing, ts);
    if r.Ok? {
      AssignedSnoc(items, names, local, ts, i, r.value);
      FreshSnoc(names, local, r.value);
    }
  }

  /** Local chains stay, in order; every imported chain is appended once under a fresh name. */
  method MergeRouteChains(local: seq<Item>, imported: seq<Item>, ts: string) returns (r: Result<seq<Item>, ()>)
    requires AllNamed(imported) && IsTimestamp(ts)
    ensures r.Ok? ==> Appended(local, imported, ts, r.value)
    ensures |local| + |imported| + 2 < PowerOfTen(47) ==> r.Ok?
  {
    hide Assigned, Fresh, NamesOf, Renamed, PowerOfTen;
    NamesOfSize(local);
    var existing, merged := NamesOf(local), local;
    ghost var names: seq<string> := [];
    Nothing(imported, NamesOf(local), ts);
    for i := 0 to |imported|
      invariant |names| == i && existing == NamesOf(local) + Elements(names) && |existing| <= |local| + i
      invariant Fresh(names, NamesOf(local)) && Assigned(imported[..i], names, NamesOf(local), ts)
      invariant merged == local + Renamed(imported[..i], names)
    {
      var name := NextName(imported, i, existing, NamesOf(local), names, ts);
      if name.Err? {
        return Err(());
      }
      RenamedSnoc(imported, names, i, name.value);
      existing := existing + {name.value};
      merged := merged + [Item(name.value, imported[i].body)];
      names := names + [name.value];
    }
    assert imported[..|imported|] == imported;
    r := Ok(merged);
  }

  lemma Nothing(imported: seq<Item>, existing: set<string>, ts: string)
    ensures Fresh([], existing) && Assigned(imported[..0], [], existing, ts)
    ensures existing == existing + Elements([])
    ensures Renamed(imported[..0], []) == []
  {
  }

  lemma {:induction false} NamesOfSize(items: seq<Item>)
    ensures |NamesOf(items)| <= |items|
  {
    if items == [] {
      assert NamesOf(items) == {};
    } else {
      var init, last := items[..|items| - 1], items[|items| - 1];
      NamesOfSize(init);
      assert items == init + [last];
      assert NamesOf(items) == NamesOf(init) + {last.name};
    }
  }

  // ---------------------------------------------------------------------
  // Node groups
  // ---------------------------------------------------------------------

  function Without(items: seq<Item>, name: string): seq<Item> {
    if items == [] then []
    else Without(items[..|items| - 1], name) + if items[|items| - 1].name == name then [] else [items[|items| - 1]]
  }

  /** The store's `add` replaces a group of the same name. */
  function Upsert(items: seq<Item>, item: Item): seq<Item> {
    Without(items, item.name) + [item]
  }

  lemma {:induction false} NothingReplaced(items: seq<Item>, name: string)
    requires name !in NamesOf(items)
    ensures Without(items, name) == items
  {
    if items != [] {
      var init, last := items[..|items| - 1], items[|items| - 1];
      assert items == init + [last];
      assert last in items;
      assert NamesOf(init) <= NamesOf(items);
      NothingReplaced(init, name);
    }
  }

  lemma NamesOfConcat(a: seq<Item>, b: seq<Item>)
    ensures NamesOf(a + b) == NamesOf(a) + NamesOf(b)
  {
  }

  lemma NamesOfRenamed(items: seq<Item>, names: seq<string>)
    requires |names| == |items|
    ensures NamesOf(Renamed(items, names)) == Elements(names)
  {
    forall name ensures name in NamesOf(Renamed(items, names)) <==> name in names {
      if name in names {
        var i :| 0 <= i < |names| && names[i] == name;
        assert Renamed(items, names)[i] in Renamed(items, names);
      }
    }
  }

  lemma UpsertAppends(local: seq<Item>, items: seq<Item>, names: seq<string>, item: Item)
    requires |names| == |items| && item.name !in NamesOf(local) + Elements(names)
    ensures Upsert(local + Renamed(items, names), item) == local + Renamed(items, names) + [item]
  {
    hide NamesOf, Renamed, Without;
    NamesOfConcat(local, Renamed(items, names));
    NamesOfRenamed(items, names);
    NothingReplaced(local + Renamed(items, names), item.name);
  }

  /** Though the store replaces by name, no local group is replaced. */
  method MergeNodeGroups(local: seq<Item>, imported: seq<Item>, ts: string) returns (r: Result<seq<Item>, ()>)
    requires AllNamed(imported) && IsTimestamp(ts)
    ensures r.Ok? ==> Appended(local, imported, ts, r.value)
    ensures |local| + |imported| + 2 < PowerOfTen(47) ==> r.Ok?
  {
    hide Assigned, Fresh, NamesOf, Renamed, PowerOfTen, Upsert;
    NamesOfSize(local);
    var existing, stored := NamesOf(local), local;
    ghost var names: seq<string> := [];
    Nothing(imported, NamesOf(local), ts);
    for i := 0 to |imported|
      invariant |names| == i && existing == NamesOf(local) + Elements(names) && |existing| <= |local| + i
      invariant Fresh(names, NamesOf(local)) && Assigned(imported[..i], names, NamesOf(local), ts)
      invariant stored == local + Renamed(imported[..i], names)
    {
      var name := NextName(imported, i, existing, NamesOf(local), names, ts);
      if name.Err? {
        return Err(());
      }
      RenamedSnoc(imported, names, i, name.value);
      UpsertAppends(local, imported[..i], names, Item(name.value, imported[i].body));
      existing := existing + {name.value};
      stored := Upsert(stored, Item(name.value, imported[i].body));
      names := names + [name.value];
    }
    assert imported[..|imported|] == imported;
    r := Ok(stored);
  }

  // ---------------------------------------------------------------------
  // Application policy
  // ---------------------------------------------------------------------

  datatype AppPolicy = AppPolicy(schemaVersion: nat, enabled: bool, mode: string, defaultAction: string,
      rules: seq<Item>)

  /** An imported rule's id without surrounding blanks; `strip` removes those. */
  function BaseOf(strip: string -> string, id: string): string {
    if strip(id) == "" then "rule" else strip(id)
  }

  /** Each id is the first free one, given the ids in use and those assigned before it. */
  ghost predicate WithIds(imported: seq<Item>, ids: seq<string>, existing: set<string>,
      strip: string -> string, ts: string) {
    && |ids| == |imported| && Fresh(ids, existing)
    && forall i :: 0 <= i < |ids| ==> Picks(ImportedIds(BaseOf(strip, imported[i].name), ts), existing + Elements(ids[..i]), ids[i])
  }

  lemma WithIdsSnoc(imported: seq<Item>, ids: seq<string>, existing: set<string>,
      strip: string -> string, ts: string, i: nat, id: string)
    requires i < |imported| && WithIds(imported[..i], ids, existing, strip, ts)
    requires Picks(ImportedIds(BaseOf(strip, imported[i].name), ts), existing + Elements(ids), id) && id !in existing + Elements(ids)
    ensures WithIds(imported[..i + 1], ids + [id], existing, strip, ts)
    ensures Elements(ids + [id]) == Elements(ids) + {id}
  {
    hide Picks;
    FreshSnoc(ids, existing, id);
    var all := ids + [id];
    forall j | 0 <= j <= i ensures Picks(ImportedIds(BaseOf(strip, imported[j].name), ts), existing + Elements(all[..j]), all[j]) {
      if j < i {
        assert all[..j] == ids[..j] && imported[..i][j] == imported[j];
      } else {
        assert all[..j] == ids;
      }
    }
  }

  lemma NoIds(imported: seq<Item>, existing: set<string>, strip: string -> string, ts: string)
    ensures WithIds(imported[..0], [], existing, strip, ts)
  {
  }

  /** The local rules in order, then each imported one once, under its assigned fresh id. */
  ghost predicate AppendedRules(local: seq<Item>, imported: seq<Item>,
      strip: string -> string, ts: string, merged: seq<Item>) {
    exists ids :: WithIds(imported, ids, NamesOf(local), strip, ts) && merged == local + Renamed(imported, ids)
  }

  /** The new id begins with the old one, or with "rule" if that was blank. */
  ghost predicate IdFrom(id: string, name: string, strip: string -> string, ts: string) {
    "imported-" + (if strip(name) == "" then "rule" else strip(name)) + "-" + ts <= id
  }

  lemma PickedFrom(name: string, strip: string -> string, ts: string, existing: set<string>, id: string)
    requires Picks(ImportedIds(BaseOf(strip, name), ts), existing, id)
    ensures IdFrom(id, name, strip, ts)
  {
    var base := BaseOf(strip, name);
    var k: nat :| id == ImportedIds(base, ts)(k);
    IdBegins(base, ts, k);
    hide ImportedId;
  }

  lemma AppendedRulesMean(local: seq<Item>, imported: seq<Item>, strip: string -> string, ts: string, merged: seq<Item>)
    requires AppendedRules(local, imported, strip, ts, merged)
    ensures AddedBeside(local, imported, merged)
    ensures forall i :: 0 <= i < |imported| ==> IdFrom(merged[|local| + i].name, imported[i].name, strip, ts)
  {
    hide Picks, NamesOf, Fresh, IdFrom;
    var ids :| WithIds(imported, ids, NamesOf(local), strip, ts) && merged == local + Renamed(imported, ids);
    RenamedBeside(local, imported, ids);
    forall i | 0 <= i < |imported| ensures IdFrom(merged[|local| + i].name, imported[i].name, strip, ts) {
      PickedFrom(imported[i].name, strip, ts, NamesOf(local) + Elements(ids[..i]), ids[i]);
      assert merged[|local| + i].name == ids[i];
    }
  }

  method MergeAppRules(local: seq<Item>, imported: seq<Item>, strip: string -> string, ts: string)
    returns (rules: seq<Item>)
    ensures AppendedRules(local, imported, strip, ts, rules)
  {
    hide NamesOf, Renamed, ImportedId, WithIds, Picks, BaseOf;
    var existing := NamesOf(local);
    rules := local;
    ghost var ids: seq<string> := [];
    Nothing(imported, existing, ts);
    NoIds(imported, existing, strip, ts);
    for i := 0 to |imported|
      invariant |ids| == i && existing == NamesOf(local) + Elements(ids)
      invariant WithIds(imported[..i], ids, NamesOf(local), strip, ts)
      invariant rules == local + Renamed(imported[..i], ids)
    {
      var id := UniqueImportedId(BaseOf(strip, imported[i].name), existing, ts);
      WithIdsSnoc(imported, ids, NamesOf(local), strip, ts, i, id);
      RenamedSnoc(imported, ids, i, id);
      existing := existing + {id};
      rules := rules + [Item(id, imported[i].body)];
      ids := ids + [id];
    }
    assert imported[..|imported|] == imported;
  }

  /** The local policy keeps its settings and rules; imported rules are appended once each. */
  method MergeAppPolicy(local: AppPolicy, imported: seq<Item>, strip: string -> string, ts: string)
    returns (merged: AppPolicy)
    ensures merged == local.(rules := merged.rules)
    ensures AppendedRules(local.rules, imported, strip, ts, merged.rules)
  {
    var rules := MergeAppRules(local.rules, imported, strip, ts);
    merged := AppPolicy(local.schemaVersion, local.enabled, local.mode, local.defaultAction, rules);
  }

  // ---------------------------------------------------------------------
  // Rule groups
  // ---------------------------------------------------------------------

  /** Rule files by stem. A file's stem and the name inside it may differ. */
  type RuleFiles = map<string, Item>

  function NamesInside(files: RuleFiles): set<string> {
    set stem | stem in files :: files[stem].name
  }

  function Written(files: RuleFiles, items: seq<Item>): RuleFiles {
    if items == [] then files
    else
      var last := items[|items| - 1];
      Written(files, items[..|items| - 1])[last.name := last]
  }

  /** Each imported group written once, to a file of its assigned fresh name. */
  ghost predicate Stored(files: RuleFiles, imported: seq<Item>, ts: string, merged: RuleFiles) {
    exists names :: Assigned(imported, names, NamesInside(files), ts) && Fresh(names, NamesInside(files)) && merged == Written(files, Renamed(imported, names))
  }

  method MergeRuleGroups(files: RuleFiles, imported: seq<Item>, ts: string) returns (r: Result<RuleFiles, ()>)
    requires AllNamed(imported) && IsTimestamp(ts)
    ensures r.Ok? ==> Stored(files, imported, ts, r.value)
    ensures |files| + |imported| + 2 < PowerOfTen(47) ==> r.Ok?
  {
    hide Assigned, Fresh, Renamed, NamesInside, PowerOfTen;
    NamesInsideSize(files);
    var existing, stored := NamesInside(files), files;
    ghost var names: seq<string> := [];
    Nothing(imported, NamesInside(files), ts);
    for i := 0 to |imported|
      invariant |names| == i && existing == NamesInside(files) + Elements(names) && |existing| <= |files| + i
      invariant Fresh(names, NamesInside(files)) && Assigned(imported[..i], names, NamesInside(files), ts)
      invariant stored == Written(files, Renamed(imported[..i], names))
    {
      var name := NextName(imported, i, existing, NamesInside(files), names, ts);
      if name.Err? {
        return Err(());
      }
      RenamedSnoc(imported, names, i, name.value);
      WrittenSnoc(files, Renamed(imported[..i], names), Item(name.value, imported[i].body));
      existing := existing + {name.value};
      stored := stored[name.value := Item(name.value, imported[i].body)];
      names := names + [name.value];
    }
    assert imported[..|imported|] == imported;
    r := Ok(stored);
  }

  lemma {:induction false} NamesInsideSize(files: RuleFiles)
    ensures |NamesInside(files)| <= |files|
    decreases |files|
  {
    if files == map[] {
      assert NamesInside(files) == {};
    } else {
      var stem :| stem in files;
      var rest := files - {stem};
      assert files == rest[stem := files[stem]];
      assert NamesInside(files) == NamesInside(rest) + {files[stem].name};
      NamesInsideSize(rest);
    }
  }

  lemma WrittenSnoc(files: RuleFiles, items: seq<Item>, item: Item)
    ensures Written(files, items + [item]) == Written(files, items)[item.name := item]
  {
    assert (items + [item])[..|items|] == items;
  }

  /** Every imported group is in the result under its new name; other files are as before. */
  lemma {:induction false} WrittenContents(files: RuleFiles, imported: seq<Item>, names: seq<string>, stem: string)
    requires |names| == |imported| && Distinct(names)
    ensures forall i :: 0 <= i < |names| ==>
              names[i] in Written(files, Renamed(imported, names)) &&
              Written(files, Renamed(imported, names))[names[i]] == Item(names[i], imported[i].body)
    ensures stem !in names ==>
              (stem in files <==> stem in Written(files, Renamed(imported, names))) &&
              (stem in files ==> Written(files, Renamed(imported, names))[stem] == files[stem])
  {
    if names != [] {
      var n := |names| - 1;
      WrittenContents(files, imported[..n], names[..n], stem);
      RenamedSnoc(imported, names[..n], n, names[n]);
      assert names[..n] + [names[n]] == names && imported[..n + 1] == imported;
      WrittenSnoc(files, Renamed(imported[..n], names[..n]), Item(names[n], imported[n].body));
      hide Renamed, Written;
    } else {
      assert Renamed(imported, names) == [];
    }
  }

  ghost predicate LocalsKept(files: RuleFiles, merged: RuleFiles) {
    forall stem :: stem in files ==> stem in merged && merged[stem] == files[stem]
  }

  /**
   * Local groups all survive exactly when no new name is the stem of a local
   * file. Names are compared with what the files say, not with their stems.
   */
  lemma LocalGroupsKept(files: RuleFiles, imported: seq<Item>, names: seq<string>)
    requires |names| == |imported| && Fresh(names, NamesInside(files))
    ensures LocalsKept(files, Written(files, Renamed(imported, names))) <==> forall i :: 0 <= i < |names| ==> names[i] !in files
  {
    var merged := Written(files, Renamed(imported, names));
    forall stem | stem in files ensures stem !in names ==> stem in merged && merged[stem] == files[stem] {
      WrittenContents(files, imported, names, stem);
    }
    forall i | 0 <= i < |names| && names[i] in files ensures names[i] in merged && merged[names[i]] != files[names[i]] {
      WrittenContents(files, imported, names, names[i]);
      assert files[names[i]].name in NamesInside(files);
    }
    hide Written, Renamed, NamesInside;
  }

  /** When every file is named after its group, nothing local is lost. */
  lemma WellNamedFilesKept(files: RuleFiles, imported: seq<Item>, names: seq<string>)
    requires |names| == |imported| && Fresh(names, NamesInside(files))
    requires forall stem :: stem in files ==> files[stem].name == stem
    ensures LocalsKept(files, Written(files, Renamed(imported, names)))
  {
    LocalGroupsKept(files, imported, names);
    forall stem | stem in files ensures stem in NamesInside(files) {
      assert files[stem].name == stem;
    }
  }

  /** A file whose stem is the new name, but which holds another group, is overwritten. */
  lemma MisnamedFileLost(ts: string)
    requires IsTimestamp(ts)
    ensures var stem := Candidate("a", ts, 1);
            var files: RuleFiles := map[stem := Item("b", "local")];
            && Assigned([Item("a", "imported")], [stem], NamesInside(files), ts)
            && !LocalsKept(files, Written(files, Renamed([Item("a", "imported")], [stem])))
  {
    var stem := Candidate("a", ts, 1);
    var files: RuleFiles := map[stem := Item("b", "local")];
    assert |stem| > 1;
    assert NamesInside(files) == {"b"} by {
      assert files[stem].name in NamesInside(files);
    }
    hide Candidate;
    assert FirstFree(Candidates("a", ts), {"b"}, 1);
    assert Picks(Candidates("a", ts), {"b"}, stem);
    assert [stem][..0] == [] && {"b"} + Elements([]) == {"b"};
    assert Fresh([stem], {"b"});
    LocalGroupsKept(files, [Item("a", "imported")], [stem]);
    assert [stem][0] in files;
  }
}
