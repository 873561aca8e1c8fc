/**
 * The store and restore code as it runs: one process updating files, the set of
 * locks it holds and its recovery depth. Each method performs exactly the program
 * of operations that RestoreTransaction and ReplaceRestore reason about.
 */
module ConfigDirectoryStore {
  import opened Common
  import opened ConfigFiles
  import opened RestoreTransaction
  import opened ReplaceRestore

  class ConfigDirectory {
    var files: Disk
    var held: set<Path>
    var recoveryDepth: nat
    ghost var log: seq<Operation>

    /** The operations done between the two states are exactly `ops`. */
    twostate predicate Performed(ops: seq<Operation>)
      reads this
    {
      files == Run(ops, old(files)) && log == old(log) + ops
    }

    /** A file is changed only under its own lock; the rule files are also covered by the journal's. */
    predicate Covered(p: Path)
      reads this`held
    {
      p in held || (p.Rule? && JournalPath in held)
    }

    constructor (initial: Disk)
      ensures files == initial && held == {} && recoveryDepth == 0 && log == []
    {
      files := initial;
      held := {};
      recoveryDepth := 0;
      log := [];
    }

    method Unlink(p: Path)
      requires Covered(p)
      modifies this`files, this`log
      ensures Performed([Remove(p)])
      ensures p !in files && forall q :: q in files <==> q in old(files) && q != p
    {
      files := files - {p};
      log := log + [Remove(p)];
      assert [Remove(p)][..0] == [];
    }

    method WriteAtomically(p: Path, c: Content)
      requires Covered(p)
      modifies this`files, this`log
      ensures Performed(AtomicWrite(p, c))
      ensures files == (old(files) - {Temp(p)})[p := c]
    {
      AtomicWriteEffect(p, c, files);
      files := files[Temp(p) := c];
      log := log + [Create(Temp(p), c)];
      files := (files - {Temp(p)})[p := files[Temp(p)]];
      log := log + [Rename(Temp(p), p)];
      assert old(log) + AtomicWrite(p, c) == log;
      assert old(files)[Temp(p) := c] - {Temp(p)} == old(files) - {Temp(p)};
    }

    /** A listing of the rule files, in some order. */
    method GlobRules() returns (listing: seq<string>)
      ensures Lists(listing, files)
    {
      listing := [];
      var rest := set p | p in files && p.Rule?;
      while rest != {}
        invariant forall p :: p in rest ==> p in files && p.Rule? && p.stem !in listing
        invariant forall p :: p in files && p.Rule? ==> p in rest || p.stem in listing
        invariant forall stem :: stem in listing ==> Rule(stem) in files
        invariant Distinct(listing)
        decreases rest
      {
        var p :| p in rest;
        listing := listing + [p.stem];
        rest := rest - {p};
      }
    }

    /**
     * Entering a file lock. A lock already held by this process is re-entered;
     * otherwise, outside a recovery, a pending transaction is recovered first.
     */
    method Lock(path: Path) returns (ghost listing: seq<string>)
      modifies this
      ensures Lists(listing, old(files))
      ensures Performed(if path in old(held) || path == JournalPath || old(recoveryDepth) > 0 then []
                        else RecoveryOps(old(files), listing))
      ensures held == old(held) + {path} && recoveryDepth == old(recoveryDepth)
      decreases if recoveryDepth == 0 then 2 else 0
    {
      listing := GlobRules();
      if path in held {
        return;
      }
      if recoveryDepth == 0 && path != JournalPath {
        var recovered;
        recovered, listing := RecoverPending();
      }
      held := held + {path};
    }

    /** Undo a pending transaction, if there is one, and clear its journal. */
    method RecoverPending() returns (recovered: bool, ghost listing: seq<string>)
      modifies this
      ensures Lists(listing, old(files))
      ensures Performed(RecoveryOps(old(files), listing))
      ensures recovered <==> Pending(old(files))
      ensures held == old(held) && recoveryDepth == old(recoveryDepth)
      decreases 1
    {
      if !(JournalPath in files && files[JournalPath].Rollback?) {
        listing := GlobRules();
        return false, listing;
      }
      var outer := held;
      recoveryDepth := recoveryDepth + 1;
      var _ := Lock(JournalPath);
      assert files == old(files) && log == old(log);
      hide Run, UndoOps;
      var journal := files[JournalPath].journal;
      var names := GlobRules();
      listing := names;
      held := held + (set e | e in journal.entries :: e.path) + (set stem | stem in names :: Rule(stem));
      UndoJournal(journal, names);
      RunConcat(UndoOps(journal, names), [Remove(JournalPath)], old(files));
      Unlink(JournalPath);
      recoveryDepth := recoveryDepth - 1;
      held := outer;
      recovered := true;
    }

    /** Prune the rule files the journal does not name, then put every named file back. */
    method UndoJournal(journal: Journal, names: seq<string>)
      requires JournalPath in held && forall i :: 0 <= i < |journal.entries| ==> Covered(journal.entries[i].path)
      modifies this`files, this`log
      ensures Performed(UndoOps(journal, names))
    {
      ghost var prune := if journal.prune then Prune(journal.entries, names) else [];
      if journal.prune {
        PruneUnlisted(journal.entries, names);
      }
      RestoreFiles(journal.entries);
      RunConcat(prune, RestoreEntries(journal.entries), old(files));
    }

    method PruneUnlisted(entries: seq<Entry>, names: seq<string>)
      requires JournalPath in held
      modifies this`files, this`log
      ensures Performed(Prune(entries, names))
    {
      for i := 0 to |names|
        invariant Performed(Prune(entries, names[..i]))
      {
        ghost var done := Prune(entries, names[..i]);
        assert names[..i + 1][..i] == names[..i];
        if Named(entries, Rule(names[i])) {
          assert Prune(entries, names[..i + 1]) == done;
        } else {
          RunConcat(done, [Remove(Rule(names[i]))], old(files));
          Unlink(Rule(names[i]));
          assert Prune(entries, names[..i + 1]) == done + [Remove(Rule(names[i]))];
        }
      }
      assert names[..|names|] == names;
    }

    method RestoreFiles(entries: seq<Entry>)
      requires forall i :: 0 <= i < |entries| ==> Covered(entries[i].path)
      modifies this`files, this`log
      ensures Performed(RestoreEntries(entries))
    {
      for i := 0 to |entries|
        invariant Performed(RestoreEntries(entries[..i]))
      {
        RestoreFile(entries[i]);
        assert entries[..i + 1][..i] == entries[..i];
        RunConcat(RestoreEntries(entries[..i]), RestoreEntry(entries[i]), old(files));
      }
      assert entries[..|entries|] == entries;
    }

    method RestoreFile(e: Entry)
      requires Covered(e.path)
      modifies this`files, this`log
      ensures Performed(RestoreEntry(e))
    {
      if e.before.None? {
        Unlink(e.path);
      } else {
        WriteAtomically(e.path, Data(e.before.value));
      }
    }

    // -------------------------------------------------------------------
    // The transaction
    // -------------------------------------------------------------------

    /** The nine documents and the rule files, with what they hold now. */
    method SnapshotTargets() returns (entries: seq<Entry>, ghost listing: seq<string>)
      ensures Lists(listing, files) && entries == Snapshot(files, listing)
      ensures AtSnapshot(files, entries)
    {
      var names := GlobRules();
      listing := names;
      SnapshotIsState(files, names, files);
      var targets := Targets(names);
      entries := [];
      for i := 0 to |targets|
        invariant entries == EntriesFor(files, targets[..i])
      {
        entries := entries + [Entry(targets[i], Read(files, targets[i]))];
      }
      assert targets[..|targets|] == targets;
    }

    /** Writes documents in order until the environment raises; `budget` writes succeed. */
    method WriteDocuments(writes: seq<DocWrite>, budget: nat) returns (done: nat)
      requires forall doc: Document :: Doc(doc) in held
      modifies this`files, this`log
      ensures done == Min(budget, |writes|)
      ensures Performed(DocOps(writes[..done]))
    {
      done := 0;
      while done < |writes| && done < budget
        invariant done <= |writes| && done <= budget
        invariant Performed(DocOps(writes[..done]))
      {
        var path, content := Doc(writes[done].doc), Data(writes[done].bytes);
        WriteAtomically(path, content);
        assert writes[..done + 1][..done] == writes[..done];
        RunConcat(DocOps(writes[..done]), AtomicWrite(path, content), old(files));
        done := done + 1;
      }
    }

    method UnlinkRuleFiles(names: seq<string>, budget: nat) returns (done: nat)
      requires JournalPath in held
      modifies this`files, this`log
      ensures done == Min(budget, |names|)
      ensures Performed(UnlinkRules(names[..done]))
    {
      hide Run, UnlinkRules;
      done := 0;
      NothingUnlinked(names, files);
      while done < |names| && done < budget
        invariant done <= |names| && done <= budget
        invariant Performed(UnlinkRules(names[..done]))
      {
        Unlink(Rule(names[done]));
        UnlinkSnoc(names, done);
        RunConcat(UnlinkRules(names[..done]), [Remove(Rule(names[done]))], old(files));
        done := done + 1;
      }
    }

    method WriteGroups(groups: seq<Group>, budget: nat) returns (done: nat)
      requires JournalPath in held
      modifies this`files, this`log
      ensures done == Min(budget, |groups|)
      ensures Performed(GroupOps(groups[..done]))
    {
      done := 0;
      while done < |groups| && done < budget
        invariant done <= |groups| && done <= budget
        invariant Performed(GroupOps(groups[..done]))
      {
        var path, content := Rule(groups[done].stem), Data(groups[done].bytes);
        WriteAtomically(path, content);
        assert groups[..done + 1][..done] == groups[..done];
        RunConcat(GroupOps(groups[..done]), AtomicWrite(path, content), old(files));
        done := done + 1;
      }
    }

    /** The routing-rules section: unlink what is there, write one file per group. */
    method ReplaceRuleFiles(s: Sections, budget: nat)
      returns (raised: bool, left: nat, ghost rules: seq<string>, ghost done: seq<Operation>)
      requires JournalPath in held
      modifies this`files, this`log
      ensures Lists(rules, old(files))
      ensures Performed(done) && done <= RuleOps(s, rules)
      ensures !raised ==> done == RuleOps(s, rules)
    {
      hide Run, Lists, GroupOps, UnlinkRules;
      var names := GlobRules();
      rules, raised, left, done := names, false, budget, [];
      RunNothing(files);
      if s.routingRules.None? {
        return;
      }
      var groups := s.routingRules.value;
      var unlinked := UnlinkRuleFiles(names, budget);
      done, left := UnlinkRules(names[..unlinked]), budget - unlinked;
      UnlinkPrefix(names, unlinked);
      if unlinked < |names| {
        raised := true;
        return;
      }
      assert names[..unlinked] == names;
      var written := WriteGroups(groups, left);
      RunConcat(done, GroupOps(groups[..written]), old(files));
      done, left := done + GroupOps(groups[..written]), left - written;
      raised := written < |groups|;
      GroupOpsPrefix(groups, written);
      if !raised {
        assert groups[..written] == groups;
      }
    }

    /**
     * Applies the sections in order. The environment lets `budget` file writes
     * succeed and then raises; what was done is a prefix of the whole program.
     */
    method ApplySections(s: Sections, budget: nat)
      returns (raised: bool, ghost rules: seq<string>, ghost done: seq<Operation>)
      requires JournalPath in held && forall doc: Document :: Doc(doc) in held
      modifies this`files, this`log
      ensures Lists(rules, old(files))
      ensures Performed(done) && done <= ApplyOps(s, rules)
      ensures !raised ==> done == ApplyOps(s, rules)
    {
      var early, late := EarlyWrites(s), LateWrites(s);
      rules := GlobRules();
      hide Run, Lists, DocOps, RuleOps, EarlyWrites, LateWrites;
      var written := WriteDocuments(early, budget);
      DocOpsPrefix(early, written);
      done := DocOps(early[..written]);
      if written < |early| {
        raised := true;
        return;
      }
      assert early[..written] == early;
      var left;
      ghost var more;
      raised, left, rules, more := ReplaceRuleFiles(s, budget - written);
      RunConcat(done, more, old(files));
      DocOpsKeepRules(early, rules, old(files));
      done := done + more;
      if !raised {
        written := WriteDocuments(late, left);
        DocOpsPrefix(late, written);
        RunConcat(done, DocOps(late[..written]), old(files));
        done := done + DocOps(late[..written]);
        raised := written < |late|;
        assert !raised ==> late[..written] == late;
      }
    }

    /** Locking and unlinking one rule file the snapshot does not know. */
    method DropStranger(stem: string) returns (ghost nested: seq<string>)
      requires Rule(stem) !in held && recoveryDepth == 0
      modifies this
      ensures Lists(nested, old(files))
      ensures Performed(RecoveryOps(old(files), nested) + [Remove(Rule(stem))])
      ensures held == old(held) && recoveryDepth == old(recoveryDepth)
    {
      var outer := held;
      nested := Lock(Rule(stem));
      RunConcat(RecoveryOps(old(files), nested), [Remove(Rule(stem))], old(files));
      Unlink(Rule(stem));
      held := outer;
    }

    /**
     * The in-process rollback. The lock of the first unknown rule file recovers the
     * whole transaction; the rest repeats what the recovery already did.
     */
    method RestoreSnapshot(entries: seq<Entry>) returns (ghost listing: seq<string>, ghost nested: seq<string>)
      requires recoveryDepth == 0 && LocksHeld(entries)
      requires forall p :: p in held && p.Rule? ==> Named(entries, p)
      requires JournalPath in files && files[JournalPath] == Rollback(Journal(entries, true))
      modifies this
      ensures Lists(listing, old(files)) && Lists(nested, old(files))
      ensures Performed(RollbackOps(old(files), Journal(entries, true), listing, nested))
      ensures held == old(held) && recoveryDepth == old(recoveryDepth)
    {
      hide Run, Lists, Named, Prune, RestoreEntries, RecoveryOps, UndoOps, RollbackOps, StrangerOps;
      var names := GlobRules();
      listing := names;
      nested := DropStrangers(entries, names);
      RestoreFiles(entries);
      RollbackSplit(old(files), entries, listing, nested);
      RunConcat(StrangerOps(old(files), entries, names, nested), RestoreEntries(entries), old(files));
    }

    method DropStrangers(entries: seq<Entry>, names: seq<string>) returns (ghost nested: seq<string>)
      requires recoveryDepth == 0
      requires forall p :: p in held && p.Rule? ==> Named(entries, p)
      requires Pending(files) && Lists(names, files)
      modifies this
      ensures Lists(nested, old(files))
      ensures Performed(StrangerOps(old(files), entries, names, nested))
      ensures held == old(held) && recoveryDepth == old(recoveryDepth)
    {
      nested := names;
      for i := 0 to |names|
        invariant held == old(held) && recoveryDepth == 0
        invariant Lists(nested, old(files))
        invariant Performed(StrangerOps(old(files), entries, names[..i], nested))
        invariant Prune(entries, names[..i]) != [] ==> JournalPath !in files
      {
        PruneSnoc(entries, names, i);
        if !Named(entries, Rule(names[i])) {
          nested := DropNext(entries, names, i, nested, old(files), old(log));
        }
      }
      assert names[..|names|] == names;
    }

    /** The loop's body for an unknown rule file, relative to where the loop began. */
    method DropNext(entries: seq<Entry>, names: seq<string>, i: nat, ghost nested: seq<string>,
        ghost base: Disk, ghost baseLog: seq<Operation>)
      returns (ghost nested': seq<string>)
      requires recoveryDepth == 0 && i < |names| && Rule(names[i]) !in held && !Named(entries, Rule(names[i]))
      requires Pending(base) && Lists(nested, base)
      requires files == Run(StrangerOps(base, entries, names[..i], nested), base)
      requires log == baseLog + StrangerOps(base, entries, names[..i], nested)
      requires Prune(entries, names[..i]) != [] ==> JournalPath !in files
      modifies this
      ensures held == old(held) && recoveryDepth == 0
      ensures Lists(nested', base)
      ensures files == Run(StrangerOps(base, entries, names[..i + 1], nested'), base)
      ensures log == baseLog + StrangerOps(base, entries, names[..i + 1], nested')
      ensures JournalPath !in files
    {
      hide Run, Lists, Named, Prune, StrangerOps, RecoveryOps;
      ghost var gone := [Remove(Rule(names[i]))];
      ghost var seen := DropStranger(names[i]);
      StrangerStep(base, entries, names, i, nested, seen);
      RunNothing(base);
      if Prune(entries, names[..i]) == [] {
        nested' := seen;
        RunConcat(RecoveryOps(base, seen), gone, base);
        RecoveryClears(base, seen);
        RemoveKeepsClear(Rule(names[i]), Run(RecoveryOps(base, seen), base));
      } else {
        nested' := nested;
        NothingToRecover(old(files), seen);
        assert [] + gone == gone;
        RemoveKeepsClear(Rule(names[i]), old(files));
        RunConcat(StrangerOps(base, entries, names[..i], nested), gone, base);
      }
    }

    /** The journal's lock and the lock of every file in the snapshot are held. */
    predicate LocksHeld(entries: seq<Entry>)
      reads this`held
    {
      JournalPath in held && forall i :: 0 <= i < |entries| ==> entries[i].path in held
    }

    /** Takes the journal lock and the lock of every file in the snapshot. */
    method LockAll(entries: seq<Entry>)
      requires recoveryDepth == 0 && JournalPath !in files
      modifies this
      ensures files == old(files) && log == old(log) && recoveryDepth == 0
      ensures held == old(held) + {JournalPath} + (set e | e in entries :: e.path) && LocksHeld(entries)
      ensures forall p :: p in held ==> p in old(held) || p == JournalPath || Named(entries, p)
    {
      var _ := Lock(JournalPath);
      for i := 0 to |entries|
        invariant files == old(files) && log == old(log) && recoveryDepth == 0
        invariant held == old(held) + {JournalPath} + (set e | e in entries[..i] :: e.path)
        invariant forall p :: p in held ==> p in old(held) || p == JournalPath || Named(entries[..i], p)
      {
        assert entries[..i + 1][..i] == entries[..i];
        PathsSnoc(entries, i);
        var _ := Lock(entries[i].path);
      }
      assert entries[..|entries|] == entries;
    }

    /**
     * Apply the sections under the journal; on an exception roll back; then clear
     * the journal. What was done is exactly the program of a valid transaction.
     */
    method ApplyRestoreTransaction(entries: seq<Entry>, s: Sections, budget: nat, ghost snapshot: seq<string>)
      returns (committed: bool, ghost t: Transaction)
      requires recoveryDepth == 0 && held == {}
      requires JournalPath !in files
      requires Lists(snapshot, files) && entries == Snapshot(files, snapshot)
      modifies this
      ensures Valid(t) && t.before == old(files) && t.sections == s && t.snapshot == snapshot
      ensures Performed(Program(t))
      ensures committed <==> t.ending.Commit?
      ensures held == {} && recoveryDepth == 0
    {
      hide Run, Lists, Named, ApplyOps, Snapshot, RollbackOps;
      var journal := Journal(entries, true);
      LockAll(entries);
      SnapshotLocksDocuments(files, snapshot, held);
      WriteAtomically(JournalPath, Rollback(journal));
      ghost var rules, done, undone, listing, nested;
      committed, rules, done, undone, listing, nested := ApplyOrRollBack(entries, s, budget);
      JournalKeepsRules(old(files), Rollback(journal), rules);
      t := Transaction(old(files), snapshot, s, rules, if committed then Commit else Fail(|done|, None, listing, nested));
      Assembled(t, done, undone);
      ghost var written := WriteJournal(t);
      RunConcat(written, done + undone, old(files));
      RunConcat(written + (done + undone), [Remove(JournalPath)], old(files));
      Unlink(JournalPath);
      held := {};
    }

    /** Apply the sections; if the environment raises, put the snapshot back. */
    method ApplyOrRollBack(entries: seq<Entry>, s: Sections, budget: nat)
      returns (committed: bool, ghost rules: seq<string>, ghost done: seq<Operation>,
               ghost undone: seq<Operation>, ghost listing: seq<string>, ghost nested: seq<string>)
      requires recoveryDepth == 0 && LocksHeld(entries) && forall doc: Document :: Doc(doc) in held
      requires forall p :: p in held && p.Rule? ==> Named(entries, p)
      requires JournalPath in files && files[JournalPath] == Rollback(Journal(entries, true))
      modifies this
      ensures recoveryDepth == 0 && held == old(held)
      ensures Lists(rules, old(files)) && done <= ApplyOps(s, rules)
      ensures Performed(done + undone)
      ensures committed ==> done == ApplyOps(s, rules) && undone == []
      ensures !committed ==>
                && Lists(listing, Run(done, old(files))) && Lists(nested, Run(done, old(files)))
                && undone == RollbackOps(Run(done, old(files)), Journal(entries, true), listing, nested)
    {
      hide Run, Lists, Named, ApplyOps, RollbackOps, Spares;
      var raised: bool;
      raised, rules, done := ApplySections(s, budget);
      ApplySpares(s, rules);
      SparedJournal(done, old(files));
      committed, undone, listing, nested := !raised, [], [], [];
      if raised {
        listing, nested := RestoreSnapshot(entries);
        undone := RollbackOps(Run(done, old(files)), Journal(entries, true), listing, nested);
        RunConcat(done, undone, old(files));
      } else {
        assert done + [] == done;
      }
    }

    /**
     * The whole restore: recover what is pending, snapshot, transaction. An
     * unreadable journal refuses the restore and touches nothing.
     */
    method RestoreBackup(s: Sections, budget: nat) returns (outcome: Outcome, ghost before: Disk)
      requires recoveryDepth == 0 && held == {}
      modifies this
      ensures outcome.Unreadable? <==> JournalPath in old(files) && !old(files)[JournalPath].Rollback?
      ensures outcome.Unreadable? ==> files == old(files)
      ensures !outcome.Unreadable? ==>
                && JournalPath !in files
                && (exists listing :: Lists(listing, old(files)) && before == Run(RecoveryOps(old(files), listing), old(files)))
      ensures outcome.Committed? ==> forall p :: Managed(p) ==> Read(files, p) == Restored(before, s, p)
      ensures outcome.RolledBack? ==> SameManaged(files, before)
    {
      before := files;
      if JournalPath in files && !files[JournalPath].Rollback? {
        return Unreadable, before;
      }
      var _, listing := RecoverPending();
      before := files;
      RecoveredClear(old(files), listing);
      var entries, snapshot := SnapshotTargets();
      hide Run, Lists, Snapshot, Restored, RecoveryOps, Valid, Program, JournalOf;
      var committed, t := ApplyRestoreTransaction(entries, s, budget, snapshot);
      Concluded(t, files);
      outcome := if committed then Committed else RolledBack;
    }
  }

  lemma PathsSnoc(entries: seq<Entry>, i: nat)
    requires i < |entries|
    ensures (set e | e in entries[..i + 1] :: e.path) == (set e | e in entries[..i] :: e.path) + {entries[i].path}
  {
    assert entries[..i + 1] == entries[..i] + [entries[i]];
  }

  /** The nine documents are among the files of a snapshot. */
  lemma SnapshotLocksDocuments(d: Disk, listing: seq<string>, held: set<Path>)
    requires forall i :: 0 <= i < |Snapshot(d, listing)| ==> Snapshot(d, listing)[i].path in held
    ensures forall doc: Document :: Doc(doc) in held
  {
    forall doc: Document ensures Doc(doc) in held {
      TargetsOf(listing, Doc(doc));
      var i :| 0 <= i < |Targets(listing)| && Targets(listing)[i] == Doc(doc);
      assert Snapshot(d, listing)[i].path == Doc(doc);
    }
  }

  datatype Outcome = Unreadable | Committed | RolledBack

  lemma RecoveredClear(d: Disk, listing: seq<string>)
    requires JournalPath in d ==> d[JournalPath].Rollback?
    ensures JournalPath !in Run(RecoveryOps(d, listing), d)
  {
    if Pending(d) {
      RecoveryClears(d, listing);
    }
  }

  lemma Concluded(t: Transaction, d: Disk)
    requires Valid(t) && d == Run(Program(t), t.before)
    ensures JournalPath !in d
    ensures t.ending.Commit? ==> forall p :: Managed(p) ==> Read(d, p) == Restored(t.before, t.sections, p)
    ensures t.ending.Fail? ==> SameManaged(d, t.before)
  {
    Completed(t);
    SnapshotIsState(t.before, t.snapshot, d);
  }

  /** The pieces a run went through are the pieces of a valid transaction's program. */
  lemma Assembled(t: Transaction, done: seq<Operation>, undone: seq<Operation>)
    requires JournalPath !in t.before && Lists(t.snapshot, t.before) && Lists(t.rules, t.before)
    requires done <= ApplyOps(t.sections, t.rules)
    requires t.ending.Commit? ==> done == ApplyOps(t.sections, t.rules) && undone == []
    requires t.ending.Fail? ==>
               var d := Run(done, Run(WriteJournal(t), t.before));
               && t.ending.at == |done| && t.ending.orphan == None
               && Lists(t.ending.listing, d) && Lists(t.ending.nested, d)
               && undone == RollbackOps(d, JournalOf(t), t.ending.listing, t.ending.nested)
    ensures Valid(t) && Program(t) == WriteJournal(t) + (done + undone) + [Remove(JournalPath)]
  {
    hide Run, Lists, ApplyOps, RollbackOps;
    assert ApplyOps(t.sections, t.rules)[..|done|] == done;
    assert done + [] == done;
    RunConcat(WriteJournal(t), done, t.before);
  }

  lemma JournalKeepsRules(d: Disk, content: Content, rules: seq<string>)
    ensures Lists(rules, (d - {Temp(JournalPath)})[JournalPath := content]) <==> Lists(rules, d)
  {
    SameRulesSameListing((d - {Temp(JournalPath)})[JournalPath := content], d, rules);
  }

  /** What the rollback does about the rule files the snapshot does not know. */
  function StrangerOps(d: Disk, entries: seq<Entry>, names: seq<string>, nested: seq<string>): seq<Operation> {
    (if Prune(entries, names) == [] then [] else RecoveryOps(d, nested)) + Prune(entries, names)
  }

  lemma RollbackSplit(d: Disk, entries: seq<Entry>, names: seq<string>, nested: seq<string>)
    ensures RollbackOps(d, Journal(entries, true), names, nested) == StrangerOps(d, entries, names, nested) + RestoreEntries(entries)
  {
  }

  lemma PruneSnoc(entries: seq<Entry>, names: seq<string>, i: nat)
    requires i < |names|
    ensures Prune(entries, names[..i + 1]) ==
            Prune(entries, names[..i]) + (if Named(entries, Rule(names[i])) then [] else [Remove(Rule(names[i]))])
    ensures Named(entries, Rule(names[i])) ==> Prune(entries, names[..i + 1]) == Prune(entries, names[..i])
  {
    assert names[..i + 1][..i] == names[..i];
  }

  lemma StrangerStep(d: Disk, entries: seq<Entry>, names: seq<string>, i: nat, nested: seq<string>, seen: seq<string>)
    requires i < |names| && !Named(entries, Rule(names[i]))
    ensures var next := StrangerOps(d, entries, names[..i + 1], if Prune(entries, names[..i]) == [] then seen else nested);
            if Prune(entries, names[..i]) == []
            then StrangerOps(d, entries, names[..i], nested) == [] && next == RecoveryOps(d, seen) + [Remove(Rule(names[i]))]
            else next == StrangerOps(d, entries, names[..i], nested) + [Remove(Rule(names[i]))]
  {
    PruneSnoc(entries, names, i);
  }

  lemma RunNothing(d: Disk)
    ensures Run([], d) == d
  {
  }

  lemma NothingToRecover(d: Disk, listing: seq<string>)
    requires JournalPath !in d
    ensures RecoveryOps(d, listing) == []
  {
  }

  lemma RecoveryClears(d: Disk, listing: seq<string>)
    requires Pending(d)
    ensures RecoveryOps(d, listing) != []
    ensures JournalPath !in Run(RecoveryOps(d, listing), d)
  {
    var undo := UndoOps(d[JournalPath].journal, listing);
    RunConcat(undo, [Remove(JournalPath)], d);
    ClearedJournal(Run(undo, d));
  }

  lemma RemoveKeepsClear(gone: Path, d: Disk)
    requires JournalPath !in d
    ensures JournalPath !in Run([Remove(gone)], d)
  {
    assert [Remove(gone)][..0] == [];
  }

  lemma {:induction false} DocOpsKeepRules(writes: seq<DocWrite>, rules: seq<string>, d: Disk)
    ensures forall stem: string :: Rule(stem) in Run(DocOps(writes), d) <==> Rule(stem) in d
    ensures Lists(rules, Run(DocOps(writes), d)) <==> Lists(rules, d)
  {
    if writes != [] {
      var n := |writes| - 1;
      var path, content := Doc(writes[n].doc), Data(writes[n].bytes);
      DocOpsKeepRules(writes[..n], rules, d);
      RunConcat(DocOps(writes[..n]), AtomicWrite(path, content), d);
      AtomicWriteEffect(path, content, Run(DocOps(writes[..n]), d));
    }
    SameRulesSameListing(Run(DocOps(writes), d), d, rules);
  }

  lemma SameRulesSameListing(a: Disk, b: Disk, rules: seq<string>)
    requires forall stem: string :: Rule(stem) in a <==> Rule(stem) in b
    ensures Lists(rules, a) <==> Lists(rules, b)
  {
    forall p: Path | p.Rule? ensures p in a <==> p in b {
      assert p == Rule(p.stem);
    }
  }

  lemma {:induction false} DocOpsPrefix(writes: seq<DocWrite>, done: nat)
    requires done <= |writes|
    ensures DocOps(writes[..done]) <= DocOps(writes)
  {
    if done == |writes| {
      assert writes[..done] == writes;
    } else {
      var n := |writes| - 1;
      DocOpsPrefix(writes[..n], done);
      assert writes[..n][..done] == writes[..done];
    }
  }

  lemma NothingUnlinked(names: seq<string>, d: Disk)
    ensures UnlinkRules(names[..0]) == [] && Run([], d) == d
  {
  }

  lemma UnlinkSnoc(names: seq<string>, k: nat)
    requires k < |names|
    ensures UnlinkRules(names[..k + 1]) == UnlinkRules(names[..k]) + [Remove(Rule(names[k]))]
  {
  }

  lemma UnlinkPrefix(names: seq<string>, k: nat)
    requires k <= |names|
    ensures UnlinkRules(names[..k]) <= UnlinkRules(names)
  {
  }

  lemma {:induction false} GroupOpsPrefix(groups: seq<Group>, done: nat)
    requires done <= |groups|
    ensures GroupOps(groups[..done]) <= GroupOps(groups)
  {
    if done == |groups| {
      assert groups[..done] == groups;
    } else {
      var n := |groups| - 1;
      GroupOpsPrefix(groups[..n], done);
      assert groups[..n][..done] == groups[..done];
    }
  }
}
