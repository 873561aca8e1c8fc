/**
 * From the text of a journal back to the snapshot: what is written on disk,
 * parsed by a later process and undone, restores the files it was written from.
 */
module JournalRecovery {
  import opened Common
  import opened ConfigFiles
  import opened RestoreTransaction
  import C = JournalCodec

  function DocumentName(doc: Document): string {
    match doc
    case ConfigToml => "config.toml"
    case ProfilesJson => "profiles.json"
    case ProvidersJson => "providers.json"
    case AppPolicyJson => "app-policy.json"
    case NodeGroupsJson => "node_groups.json"
    case ChainsJson => "chains.json"
    case StateToml => "state.toml"
    case DnsPolicyJson => "dns-policy.json"
    case MetricsJson => "metrics.json"
  }

  /** A managed file with a name of its own; a rule file called like the journal is refused. */
  predicate Locatable(p: Path) {
    p.Doc? || (p.Rule? && '/' !in p.stem && p.stem + ".json" != C.JOURNAL_NAME)
  }

  function Relative(p: Path): C.Parts {
    match p
    case Doc(doc) => [DocumentName(doc)]
    case Rule(stem) => ["rules", stem + ".json"]
    case _ => []
  }

  function Location(dir: C.Parts, p: Path): C.Parts {
    dir + Relative(p)
  }

  predicate AllLocatable(entries: seq<Entry>) {
    forall i :: 0 <= i < |entries| ==> Locatable(entries[i].path)
  }

  /** The journal's entries as the map that is written; a later entry for a path wins. */
  function FilesOf(dir: C.Parts, entries: seq<Entry>): C.Files {
    if entries == [] then map[]
    else
      var last := entries[|entries| - 1];
      FilesOf(dir, entries[..|entries| - 1])[Location(dir, last.path) := last.before]
  }

  lemma DocumentNamesDiffer(a: Document, b: Document)
    requires DocumentName(a) == DocumentName(b)
    ensures a == b
  {
    assert "config.toml"[1] == 'o' && "chains.json"[1] == 'h';
    assert "app-policy.json"[0] == 'a' && "dns-policy.json"[0] == 'd';
  }

  lemma RelativeDiffers(p: Path, q: Path)
    requires Locatable(p) && Locatable(q) && Relative(p) == Relative(q)
    ensures p == q
  {
    assert |Relative(p)| == |Relative(q)|;
    if p.Doc? {
      assert Relative(p)[0] == Relative(q)[0];
      DocumentNamesDiffer(p.doc, q.doc);
    } else {
      assert Relative(p)[1] == Relative(q)[1];
      assert p.stem == (p.stem + ".json")[..|p.stem|] && q.stem == (q.stem + ".json")[..|q.stem|];
    }
  }

  lemma LocationDiffers(dir: C.Parts, p: Path, q: Path)
    requires Locatable(p) && Locatable(q) && Location(dir, p) == Location(dir, q)
    ensures p == q
  {
    assert Relative(p) == Location(dir, p)[|dir|..] && Relative(q) == Location(dir, q)[|dir|..];
    hide Relative;
    RelativeDiffers(p, q);
  }

  /** The map says of every path what the entries say. */
  lemma {:induction false} FilesSay(dir: C.Parts, entries: seq<Entry>, p: Path)
    requires AllLocatable(entries) && Locatable(p)
    ensures Location(dir, p) in FilesOf(dir, entries) <==> Named(entries, p)
    ensures Named(entries, p) ==> FilesOf(dir, entries)[Location(dir, p)] == Wanted(entries, p, None)
  {
    if entries != [] {
      var init, last := entries[..|entries| - 1], entries[|entries| - 1];
      FilesSay(dir, init, p);
      hide Location, Locatable;
      if last.path != p && Location(dir, last.path) == Location(dir, p) {
        LocationDiffers(dir, last.path, p);
      }
    }
  }

  lemma {:induction false} NotLocatableNotNamed(entries: seq<Entry>, p: Path)
    requires AllLocatable(entries) && !Locatable(p)
    ensures !Named(entries, p)
  {
    if entries != [] {
      NotLocatableNotNamed(entries[..|entries| - 1], p);
    }
  }

  /** Entries with the same map ask for the same files. */
  lemma SameWanted(dir: C.Parts, a: seq<Entry>, b: seq<Entry>, p: Path)
    requires AllLocatable(a) && AllLocatable(b) && FilesOf(dir, a) == FilesOf(dir, b)
    ensures Named(a, p) <==> Named(b, p)
    ensures Wanted(a, p, None) == Wanted(b, p, None)
  {
    hide FilesOf, Location, Named, Wanted;
    WantedOtherwise(a, p, None, None);
    WantedOtherwise(b, p, None, None);
    if Locatable(p) {
      FilesSay(dir, a, p);
      FilesSay(dir, b, p);
    } else {
      NotLocatableNotNamed(a, p);
      NotLocatableNotNamed(b, p);
    }
  }

  lemma LocationShape(dir: C.Parts, p: Path)
    requires C.Normal(dir) && Locatable(p)
    ensures var q := Location(dir, p); C.Normal(q) && dir <= q && C.Writable(dir, q) && C.Recoverable(dir, q)
  {
    var q, name := Location(dir, p), Relative(p);
    assert q[|dir|..] == name;
    if p.Doc? {
      DocumentComponent(p.doc);
    } else {
      RuleComponent(p.stem);
    }
    hide DocumentName;
  }

  lemma DocumentComponent(doc: Document)
    ensures var name := DocumentName(doc); C.Component(name) && name != C.JOURNAL_NAME && name != ".."
  {
  }

  lemma RuleComponent(stem: string)
    requires '/' !in stem
    ensures C.Component(stem + ".json") && stem + ".json" != ".." && C.Component("rules") && "rules" != ".."
  {
    var name := stem + ".json";
    assert |name| >= 5;
    forall i | 0 <= i < |name| ensures name[i] != '/' {
      assert i < |stem| ==> name[i] in stem;
    }
  }

  lemma {:induction false} FilesShape(dir: C.Parts, entries: seq<Entry>, q: C.Parts)
    requires C.Normal(dir) && AllLocatable(entries) && q in FilesOf(dir, entries)
    ensures C.Normal(q) && dir <= q && C.Writable(dir, q) && C.Recoverable(dir, q)
  {
    var init, last := entries[..|entries| - 1], entries[|entries| - 1];
    if q == Location(dir, last.path) {
      hide Location;
      LocationShape(dir, last.path);
    } else {
      FilesShape(dir, init, q);
    }
  }

  /** A written journal of managed files parses back to exactly the map it was written from. */
  lemma WrittenParsesBack(dir: C.Parts, entries: seq<Entry>, order: seq<C.Parts>, prune: bool)
    requires C.Normal(dir) && AllLocatable(entries) && C.Enumerates(order, FilesOf(dir, entries))
    ensures var written := C.WriteEntries(dir, FilesOf(dir, entries), order);
            written.Ok? && C.ParseDocument(C.Document(written.value, prune), dir) == Ok((FilesOf(dir, entries), prune))
  {
    var files := FilesOf(dir, entries);
    forall q | q in files ensures C.Normal(q) && dir <= q && C.Writable(dir, q) && C.Recoverable(dir, q) {
      FilesShape(dir, entries, q);
    }
    hide FilesOf, C.Normal, C.Writable, C.Recoverable, C.WriteEntries, C.ParseDocument, C.Document;
    C.JournalRoundTrip(dir, files, order, prune);
  }

  /**
   * Whatever the files have become, undoing what a later process parses from the
   * written text, in whatever order it takes the entries, reaches the snapshot.
   */
  lemma RecoveryFromText(dir: C.Parts, entries: seq<Entry>, order: seq<C.Parts>, found: seq<Entry>, d: Disk, listing: seq<string>)
    requires C.Normal(dir) && AllLocatable(entries) && AllLocatable(found)
    requires Undoable(Journal(entries, true)) && C.Enumerates(order, FilesOf(dir, entries)) && Lists(listing, d)
    requires var written := C.WriteEntries(dir, FilesOf(dir, entries), order);
             written.Ok? ==> C.ParseDocument(C.Document(written.value, true), dir) == Ok((FilesOf(dir, found), true))
    ensures AtSnapshot(Run(UndoOps(Journal(found, true), listing), d), entries)
  {
    hide C.WriteEntries, C.ParseDocument, C.Document, C.Normal, FilesOf, Lists, Wanted, UndoOps, Run, Read;
    WrittenParsesBack(dir, entries, order, true);
    assert FilesOf(dir, found) == FilesOf(dir, entries);
    forall p ensures (Named(found, p) <==> Named(entries, p)) && Wanted(found, p, None) == Wanted(entries, p, None) {
      SameWanted(dir, found, entries, p);
    }
    hide Named;
    assert Undoable(Journal(found, true));
    UndoReachesSnapshot(Journal(found, true), listing, d);
  }
}
