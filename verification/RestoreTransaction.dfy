/**
 * The restore transaction: snapshot, journal, mutate, clear; and the recovery
 * that undoes it. Programs are sequences of file-system operations, so that a
 * crash is a prefix of a program.
 */
module RestoreTransaction {
  import opened Common
  import opened ConfigFiles

  // ---------------------------------------------------------------------
  // Snapshots
  // ---------------------------------------------------------------------

  const DOCUMENTS: seq<Document> :=
    [ConfigToml, ProfilesJson, ProvidersJson, AppPolicyJson, NodeGroupsJson,
     ChainsJson, StateToml, DnsPolicyJson, MetricsJson]

  function DocumentIndex(doc: Document): (i: nat)
    ensures i < |DOCUMENTS| && DOCUMENTS[i] == doc
  {
    match doc
    case ConfigToml => 0
    case ProfilesJson => 1
    case ProvidersJson => 2
    case AppPolicyJson => 3
    case NodeGroupsJson => 4
    case ChainsJson => 5
    case StateToml => 6
    case DnsPolicyJson => 7
    case MetricsJson => 8
  }

  function EntriesFor(d: Disk, paths: seq<Path>): seq<Entry> {
    seq(|paths|, i requires 0 <= i < |paths| => Entry(paths[i], Read(d, paths[i])))
  }

  function Targets(listing: seq<string>): seq<Path> {
    seq(|DOCUMENTS|, i requires 0 <= i < |DOCUMENTS| => Doc(DOCUMENTS[i]))
    + seq(|listing|, i requires 0 <= i < |listing| => Rule(listing[i]))
  }

  /** The nine documents and the listed rule files, with their contents. */
  function Snapshot(d: Disk, listing: seq<string>): seq<Entry> {
    EntriesFor(d, Targets(listing))
  }

  predicate Named(entries: seq<Entry>, p: Path) {
    entries != [] && (entries[|entries| - 1].path == p || Named(entries[..|entries| - 1], p))
  }

  /** What the entries say a path held; `otherwise` when they do not name it. */
  function Wanted(entries: seq<Entry>, p: Path, otherwise: Option<Bytes>): Option<Bytes> {
    if entries == [] then otherwise
    else if entries[|entries| - 1].path == p then entries[|entries| - 1].before
    else Wanted(entries[..|entries| - 1], p, otherwise)
  }

  /** The managed files are exactly those of the snapshot, with its contents. */
  ghost predicate AtSnapshot(d: Disk, entries: seq<Entry>) {
    forall p :: Managed(p) ==> Read(d, p) == Wanted(entries, p, None)
  }

  lemma {:induction false} WantedOtherwise(entries: seq<Entry>, p: Path, x: Option<Bytes>, y: Option<Bytes>)
    ensures Named(entries, p) ==> Wanted(entries, p, x) == Wanted(entries, p, y)
    ensures !Named(entries, p) ==> Wanted(entries, p, x) == x
  {
    if entries != [] {
      WantedOtherwise(entries[..|entries| - 1], p, x, y);
    }
  }

  lemma {:induction false} WantedOfState(d: Disk, paths: seq<Path>, p: Path, x: Option<Bytes>)
    ensures Wanted(EntriesFor(d, paths), p, x) == if p in paths then Read(d, p) else x
    ensures Named(EntriesFor(d, paths), p) <==> p in paths
  {
    if paths != [] {
      var n := |paths| - 1;
      WantedOfState(d, paths[..n], p, x);
      assert EntriesFor(d, paths)[..n] == EntriesFor(d, paths[..n]);
      assert paths == paths[..n] + [paths[n]];
    }
  }

  lemma TargetsOf(listing: seq<string>, p: Path)
    ensures p in Targets(listing) <==> p.Doc? || (p.Rule? && p.stem in listing)
  {
    var targets := Targets(listing);
    if p.Doc? {
      assert targets[DocumentIndex(p.doc)] == p;
    } else if p.Rule? && p.stem in listing {
      var i :| 0 <= i < |listing| && listing[i] == p.stem;
      assert targets[|DOCUMENTS| + i] == p;
    }
  }

  /** A state equals the snapshot exactly when no managed file differs from the snapshotted state. */
  lemma SnapshotIsState(d: Disk, listing: seq<string>, other: Disk)
    requires Lists(listing, d)
    ensures AtSnapshot(other, Snapshot(d, listing)) <==> SameManaged(other, d)
  {
    forall p | Managed(p) ensures Wanted(Snapshot(d, listing), p, None) == Read(d, p) {
      WantedOfState(d, Targets(listing), p, None);
      TargetsOf(listing, p);
    }
  }

  // ---------------------------------------------------------------------
  // Recovery
  // ---------------------------------------------------------------------

  predicate AllManaged(entries: seq<Entry>) {
    forall e :: e in entries ==> Managed(e.path)
  }

  function RestoreEntry(e: Entry): seq<Operation> {
    match e.before
    case None => [Remove(e.path)]
    case Some(bytes) => AtomicWrite(e.path, Data(bytes))
  }

  function RestoreEntries(entries: seq<Entry>): seq<Operation> {
    if entries == [] then []
    else RestoreEntries(entries[..|entries| - 1]) + RestoreEntry(entries[|entries| - 1])
  }

  /** Unlink the rule files the journal does not name. */
  function Prune(entries: seq<Entry>, listing: seq<string>): seq<Operation> {
    if listing == [] then []
    else
      var stem := listing[|listing| - 1];
      Prune(entries, listing[..|listing| - 1]) +
      (if Named(entries, Rule(stem)) then [] else [Remove(Rule(stem))])
  }

  /** What a recovery does to the files before it clears the journal. */
  function UndoOps(j: Journal, listing: seq<string>): seq<Operation> {
    (if j.prune then Prune(j.entries, listing) else []) + RestoreEntries(j.entries)
  }

  /** Everything a recovery does on this disk, in order. */
  function RecoveryOps(d: Disk, listing: seq<string>): seq<Operation> {
    if Pending(d) then UndoOps(d[JournalPath].journal, listing) + [Remove(JournalPath)] else []
  }

  lemma RestoreEntryEffect(e: Entry, d: Disk)
    requires Managed(e.path)
    ensures var d' := Run(RestoreEntry(e), d);
            && Read(d', e.path) == e.before
            && (forall p :: Managed(p) && p != e.path ==> Read(d', p) == Read(d, p))
    ensures AllSpare(RestoreEntry(e))
  {
    match e.before {
      case None =>
        assert RestoreEntry(e)[..0] == [];
      case Some(bytes) =>
        AtomicWriteEffect(e.path, Data(bytes), d);
    }
  }

  lemma {:induction false} RestoreEntriesEffect(entries: seq<Entry>, d: Disk, p: Path)
    requires Managed(p) && AllManaged(entries)
    ensures Read(Run(RestoreEntries(entries), d), p) == Wanted(entries, p, Read(d, p))
    ensures AllSpare(RestoreEntries(entries))
  {
    if entries != [] {
      var n := |entries| - 1;
      var init, last := entries[..n], entries[n];
      RestoreEntriesEffect(init, d, p);
      RestoreEntryEffect(last, Run(RestoreEntries(init), d));
      RunConcat(RestoreEntries(init), RestoreEntry(last), d);
    }
  }

  lemma {:induction false} PruneEffect(entries: seq<Entry>, listing: seq<string>, d: Disk, p: Path)
    ensures Read(Run(Prune(entries, listing), d), p) ==
            if p.Rule? && p.stem in listing && !Named(entries, p) then None else Read(d, p)
  {
    if listing != [] {
      var n := |listing| - 1;
      var stem := listing[n];
      PruneEffect(entries, listing[..n], d, p);
      var step := if Named(entries, Rule(stem)) then [] else [Remove(Rule(stem))];
      RunConcat(Prune(entries, listing[..n]), step, d);
      assert Prune(entries, listing) == Prune(entries, listing[..n]) + step;
      var before := Run(Prune(entries, listing[..n]), d);
      assert Run([], before) == before;
      RemoveEffect(Rule(stem), before);
      hide Run, Read, Named, Prune;
      assert p.Rule? ==> (p.stem in listing <==> p.stem in listing[..n] || p.stem == stem);
    }
  }

  lemma {:induction false} PruneSpares(entries: seq<Entry>, listing: seq<string>)
    ensures AllSpare(Prune(entries, listing))
  {
    if listing != [] {
      PruneSpares(entries, listing[..|listing| - 1]);
    }
  }

  lemma RemoveEffect(gone: Path, d: Disk)
    ensures forall p :: Read(Run([Remove(gone)], d), p) == if p == gone then None else Read(d, p)
  {
    assert [Remove(gone)][..0] == [];
  }

  /** A journal that lists every document and prunes: what a restore writes. */
  ghost predicate Undoable(j: Journal) {
    && j.prune
    && AllManaged(j.entries)
    && forall doc: Document :: Named(j.entries, Doc(doc))
  }

  lemma UndoSpares(j: Journal, listing: seq<string>)
    requires AllManaged(j.entries)
    ensures AllSpare(UndoOps(j, listing))
  {
    PruneSpares(j.entries, listing);
    RestoreEntriesEffect(j.entries, map[], Doc(ConfigToml));
  }

  /**
   * Undoing any journal puts every named file back, removes the listed rule files it does
   * not name if it asks for that, and changes no other managed file.
   */
  lemma UndoEffect(j: Journal, listing: seq<string>, d: Disk, p: Path)
    requires Managed(p) && AllManaged(j.entries)
    ensures Read(Run(UndoOps(j, listing), d), p) ==
            if Named(j.entries, p) then Wanted(j.entries, p, None)
            else if j.prune && p.Rule? && p.stem in listing then None
            else Read(d, p)
  {
    var prune := if j.prune then Prune(j.entries, listing) else [];
    var pruned := Run(prune, d);
    RunConcat(prune, RestoreEntries(j.entries), d);
    PruneEffect(j.entries, listing, d, p);
    RestoreEntriesEffect(j.entries, pruned, p);
    WantedOtherwise(j.entries, p, Read(pruned, p), None);
    hide Wanted, Named, RestoreEntries, Prune;
  }

  /** Whatever the files look like, undoing a pruning journal produces its snapshot. */
  lemma UndoReachesSnapshot(j: Journal, listing: seq<string>, d: Disk)
    requires Undoable(j) && Lists(listing, d)
    ensures AtSnapshot(Run(UndoOps(j, listing), d), j.entries)
  {
    var pruned := Run(Prune(j.entries, listing), d);
    RunConcat(Prune(j.entries, listing), RestoreEntries(j.entries), d);
    forall p | Managed(p) ensures Read(Run(UndoOps(j, listing), d), p) == Wanted(j.entries, p, None) {
      PruneEffect(j.entries, listing, d, p);
      RestoreEntriesEffect(j.entries, pruned, p);
      WantedOtherwise(j.entries, p, Read(pruned, p), None);
      hide Run, Wanted, Named, RestoreEntries, Prune;
    }
  }

  /** Either the journal is there to undo everything, or everything is as it was. */
  ghost predicate Recoverable(d: Disk, j: Journal) {
    || (JournalPath in d && d[JournalPath] == Rollback(j))
    || Settled(d, j)
  }

  ghost predicate Settled(d: Disk, j: Journal) {
    JournalPath !in d && AtSnapshot(d, j.entries)
  }

  lemma PrefixSpares(ops: seq<Operation>, k: nat)
    requires AllSpare(ops) && k <= |ops|
    ensures AllSpare(ops[..k])
  {
  }

  /** A recovery cut short anywhere stays recoverable; one that runs to its end has settled. */
  lemma RecoveryKeeps(d: Disk, j: Journal, listing: seq<string>, cut: nat)
    requires Undoable(j) && Recoverable(d, j) && Lists(listing, d)
    requires cut <= |RecoveryOps(d, listing)|
    ensures Recoverable(Run(RecoveryOps(d, listing)[..cut], d), j)
    ensures cut == |RecoveryOps(d, listing)| ==> Settled(Run(RecoveryOps(d, listing)[..cut], d), j)
  {
    var ops := RecoveryOps(d, listing);
    if Pending(d) {
      var undo := UndoOps(j, listing);
      UndoSpares(j, listing);
      if cut < |ops| {
        assert ops[..cut] == undo[..cut];
        PrefixSpares(undo, cut);
        SparedJournal(undo[..cut], d);
      } else {
        assert ops[..cut] == ops;
        UndoReachesSnapshot(j, listing, d);
        RunConcat(undo, [Remove(JournalPath)], d);
        RemoveEffect(JournalPath, Run(undo, d));
        ClearedJournal(Run(undo, d));
      }
    } else {
      assert ops[..cut] == [];
    }
  }

  lemma ClearedJournal(d: Disk)
    ensures JournalPath !in Run([Remove(JournalPath)], d)
  {
    assert [Remove(JournalPath)][..0] == [];
  }

  // ---------------------------------------------------------------------
  // Recoveries that are themselves interrupted
  // ---------------------------------------------------------------------

  /** One recovery attempt: the listing it saw and how many operations it lived for. */
  datatype Attempt = Attempt(listing: seq<string>, cut: nat)

  function AfterAttempt(d: Disk, a: Attempt): Disk
    requires a.cut <= |RecoveryOps(d, a.listing)|
  {
    Run(RecoveryOps(d, a.listing)[..a.cut], d)
  }

  ghost predicate Possible(d: Disk, attempts: seq<Attempt>)
    decreases attempts
  {
    attempts == [] ||
    (&& Lists(attempts[0].listing, d)
     && attempts[0].cut <= |RecoveryOps(d, attempts[0].listing)|
     && Possible(AfterAttempt(d, attempts[0]), attempts[1..]))
  }

  ghost function AfterAttempts(d: Disk, attempts: seq<Attempt>): Disk
    requires Possible(d, attempts)
    decreases attempts
  {
    if attempts == [] then d else AfterAttempts(AfterAttempt(d, attempts[0]), attempts[1..])
  }

  lemma {:induction false} AttemptsKeep(d: Disk, j: Journal, attempts: seq<Attempt>)
    requires Undoable(j) && Recoverable(d, j) && Possible(d, attempts)
    ensures Recoverable(AfterAttempts(d, attempts), j)
    decreases attempts
  {
    if attempts != [] {
      RecoveryKeeps(d, j, attempts[0].listing, attempts[0].cut);
      AttemptsKeep(AfterAttempt(d, attempts[0]), j, attempts[1..]);
    }
  }
}
