/**
 * A replace-mode restore as a program: journal, section writes, clear; or, when
 * a section write raises, journal, part of the writes, rollback, clear. The
 * theorem is that every crash point of every such program is undone.
 */
module ReplaceRestore {
  import opened Common
  import opened ConfigFiles
  import opened RestoreTransaction

  // ---------------------------------------------------------------------
  // Section writes
  // ---------------------------------------------------------------------

  datatype DocWrite = DocWrite(doc: Document, bytes: Bytes)

  datatype Group = Group(stem: string, bytes: Bytes)

  /**
   * The selected sections, already rendered. `providerState` is the sequence of
   * contents its per-provider updates give to providers.json; the informational
   * sections write nothing.
   */
  datatype Sections = Sections(
    settings: Option<Bytes>,
    profiles: Option<Bytes>,
    providers: Option<Bytes>,
    providerState: seq<Bytes>,
    routingRules: Option<seq<Group>>,
    appPolicy: Option<Bytes>,
    nodeGroups: Option<Bytes>,
    routeChains: Option<Bytes>,
    selectionState: Option<Bytes>,
    dnsPolicy: Option<Bytes>,
    metricsPolicy: Option<Bytes>)

  function Single(doc: Document, section: Option<Bytes>): seq<DocWrite> {
    if section.Some? then [DocWrite(doc, section.value)] else []
  }

  function ProviderUpdates(contents: seq<Bytes>): seq<DocWrite> {
    seq(|contents|, i requires 0 <= i < |contents| => DocWrite(ProvidersJson, contents[i]))
  }

  /** Document writes in section order, up to the routing rules. */
  function EarlyWrites(s: Sections): seq<DocWrite> {
    Single(ConfigToml, s.settings) + Single(ProfilesJson, s.profiles) +
    Single(ProvidersJson, s.providers) + ProviderUpdates(s.providerState)
  }

  /** Document writes in section order, after the routing rules. */
  function LateWrites(s: Sections): seq<DocWrite> {
    Single(AppPolicyJson, s.appPolicy) + Single(NodeGroupsJson, s.nodeGroups) +
    Single(ChainsJson, s.routeChains) + Single(StateToml, s.selectionState) +
    Single(DnsPolicyJson, s.dnsPolicy) + Single(MetricsJson, s.metricsPolicy)
  }

  function DocOps(writes: seq<DocWrite>): seq<Operation> {
    if writes == [] then []
    else
      var last := writes[|writes| - 1];
      DocOps(writes[..|writes| - 1]) + AtomicWrite(Doc(last.doc), Data(last.bytes))
  }

  function UnlinkRules(listing: seq<string>): seq<Operation> {
    seq(|listing|, i requires 0 <= i < |listing| => Remove(Rule(listing[i])))
  }

  function GroupOps(groups: seq<Group>): seq<Operation> {
    if groups == [] then []
    else
      var last := groups[|groups| - 1];
      GroupOps(groups[..|groups| - 1]) + AtomicWrite(Rule(last.stem), Data(last.bytes))
  }

  /** Every existing rule file is unlinked, then one file per group is written. */
  function RuleOps(s: Sections, listing: seq<string>): seq<Operation> {
    if s.routingRules.None? then [] else UnlinkRules(listing) + GroupOps(s.routingRules.value)
  }

  function ApplyOps(s: Sections, listing: seq<string>): seq<Operation> {
    DocOps(EarlyWrites(s)) + RuleOps(s, listing) + DocOps(LateWrites(s))
  }

  // ---------------------------------------------------------------------
  // The restored state
  // ---------------------------------------------------------------------

  function LastGroup(groups: seq<Group>, stem: string): Option<Bytes> {
    if groups == [] then None
    else if groups[|groups| - 1].stem == stem then Some(groups[|groups| - 1].bytes)
    else LastGroup(groups[..|groups| - 1], stem)
  }

  function Replacement(s: Sections, doc: Document): Option<Bytes> {
    match doc
    case ConfigToml => s.settings
    case ProfilesJson => s.profiles
    case ProvidersJson => if s.providerState == [] then s.providers else Some(s.providerState[|s.providerState| - 1])
    case AppPolicyJson => s.appPolicy
    case NodeGroupsJson => s.nodeGroups
    case ChainsJson => s.routeChains
    case StateToml => s.selectionState
    case DnsPolicyJson => s.dnsPolicy
    case MetricsJson => s.metricsPolicy
  }

  /** What a path holds once the restore is complete. */
  function Restored(d: Disk, s: Sections, p: Path): Option<Bytes> {
    match p
    case Doc(doc) => if Replacement(s, doc).Some? then Replacement(s, doc) else Read(d, p)
    case Rule(stem) => if s.routingRules.Some? then LastGroup(s.routingRules.value, stem) else Read(d, p)
    case _ => None
  }

  function LastWrite(writes: seq<DocWrite>, p: Path, before: Option<Bytes>): Option<Bytes> {
    if writes == [] then before
    else
      var last := writes[|writes| - 1];
      if Doc(last.doc) == p then Some(last.bytes) else LastWrite(writes[..|writes| - 1], p, before)
  }

  lemma {:induction false} LastWriteConcat(a: seq<DocWrite>, b: seq<DocWrite>, p: Path, before: Option<Bytes>)
    ensures LastWrite(a + b, p, before) == LastWrite(b, p, LastWrite(a, p, before))
  {
    if b == [] {
      assert a + b == a;
    } else {
      LastWriteConcat(a, b[..|b| - 1], p, before);
      assert (a + b)[..|a + b| - 1] == a + b[..|b| - 1];
    }
  }

  lemma SingleWrite(doc: Document, section: Option<Bytes>, p: Path, before: Option<Bytes>)
    ensures LastWrite(Single(doc, section), p, before) == if p == Doc(doc) && section.Some? then section else before
  {
    if section.Some? {
      assert Single(doc, section)[..0] == [];
    }
  }

  lemma {:induction false} ProviderWrites(contents: seq<Bytes>, p: Path, before: Option<Bytes>)
    ensures LastWrite(ProviderUpdates(contents), p, before) ==
            if p == Doc(ProvidersJson) && contents != [] then Some(contents[|contents| - 1]) else before
  {
    if contents != [] {
      var n := |contents| - 1;
      ProviderWrites(contents[..n], p, before);
      assert ProviderUpdates(contents)[..n] == ProviderUpdates(contents[..n]);
    }
  }

  lemma EarlyWritten(s: Sections, p: Path, before: Option<Bytes>)
    ensures LastWrite(EarlyWrites(s), p, before) ==
            if p.Doc? && p.doc in {ConfigToml, ProfilesJson, ProvidersJson} && Replacement(s, p.doc).Some?
            then Replacement(s, p.doc) else before
  {
    var a, b, c := Single(ConfigToml, s.settings), Single(ProfilesJson, s.profiles), Single(ProvidersJson, s.providers);
    var x := LastWrite(a, p, before);
    var y := LastWrite(b, p, x);
    var z := LastWrite(c, p, y);
    LastWriteConcat(a, b, p, before);
    LastWriteConcat(a + b, c, p, before);
    LastWriteConcat(a + b + c, ProviderUpdates(s.providerState), p, before);
    SingleWrite(ConfigToml, s.settings, p, before);
    SingleWrite(ProfilesJson, s.profiles, p, x);
    SingleWrite(ProvidersJson, s.providers, p, y);
    ProviderWrites(s.providerState, p, z);
    hide LastWrite;
  }

  lemma LateWritten(s: Sections, p: Path, before: Option<Bytes>)
    ensures LastWrite(LateWrites(s), p, before) ==
            if p.Doc? && p.doc !in {ConfigToml, ProfilesJson, ProvidersJson} && Replacement(s, p.doc).Some?
            then Replacement(s, p.doc) else before
  {
    var a, b, c := Single(AppPolicyJson, s.appPolicy), Single(NodeGroupsJson, s.nodeGroups), Single(ChainsJson, s.routeChains);
    var e, f, g := Single(StateToml, s.selectionState), Single(DnsPolicyJson, s.dnsPolicy), Single(MetricsJson, s.metricsPolicy);
    var x := LastWrite(a, p, before);
    var y := LastWrite(b, p, x);
    var z := LastWrite(c, p, y);
    var u := LastWrite(e, p, z);
    var v := LastWrite(f, p, u);
    LastWriteConcat(a, b, p, before);
    LastWriteConcat(a + b, c, p, before);
    LastWriteConcat(a + b + c, e, p, before);
    LastWriteConcat(a + b + c + e, f, p, before);
    LastWriteConcat(a + b + c + e + f, g, p, before);
    SingleWrite(AppPolicyJson, s.appPolicy, p, before);
    SingleWrite(NodeGroupsJson, s.nodeGroups, p, x);
    SingleWrite(ChainsJson, s.routeChains, p, y);
    SingleWrite(StateToml, s.selectionState, p, z);
    SingleWrite(DnsPolicyJson, s.dnsPolicy, p, u);
    SingleWrite(MetricsJson, s.metricsPolicy, p, v);
    hide LastWrite, Single;
  }

  // ---------------------------------------------------------------------
  // Effect of the section writes
  // ---------------------------------------------------------------------

  lemma WriteEffect(q: Path, bytes: Bytes, d: Disk, p: Path)
    requires Managed(p) && Managed(q)
    ensures Read(Run(AtomicWrite(q, Data(bytes)), d), p) == if p == q then Some(bytes) else Read(d, p)
  {
    AtomicWriteEffect(q, Data(bytes), d);
  }

  lemma {:induction false} DocOpsEffect(writes: seq<DocWrite>, d: Disk, p: Path)
    requires Managed(p)
    ensures Read(Run(DocOps(writes), d), p) == LastWrite(writes, p, Read(d, p))
  {
    if writes != [] {
      var n := |writes| - 1;
      var last := AtomicWrite(Doc(writes[n].doc), Data(writes[n].bytes));
      DocOpsEffect(writes[..n], d, p);
      RunConcat(DocOps(writes[..n]), last, d);
      WriteEffect(Doc(writes[n].doc), writes[n].bytes, Run(DocOps(writes[..n]), d), p);
    }
  }

  lemma {:induction false} GroupOpsEffect(groups: seq<Group>, d: Disk, p: Path)
    requires Managed(p)
    ensures Read(Run(GroupOps(groups), d), p) ==
            if p.Rule? && LastGroup(groups, p.stem).Some? then LastGroup(groups, p.stem) else Read(d, p)
  {
    if groups != [] {
      var n := |groups| - 1;
      var last := AtomicWrite(Rule(groups[n].stem), Data(groups[n].bytes));
      GroupOpsEffect(groups[..n], d, p);
      RunConcat(GroupOps(groups[..n]), last, d);
      WriteEffect(Rule(groups[n].stem), groups[n].bytes, Run(GroupOps(groups[..n]), d), p);
    }
  }

  lemma {:induction false} UnlinkRulesEffect(listing: seq<string>, d: Disk, p: Path)
    ensures Read(Run(UnlinkRules(listing), d), p) == if p.Rule? && p.stem in listing then None else Read(d, p)
  {
    if listing != [] {
      var n := |listing| - 1;
      UnlinkRulesEffect(listing[..n], d, p);
      assert UnlinkRules(listing) == UnlinkRules(listing[..n]) + [Remove(Rule(listing[n]))];
      RunConcat(UnlinkRules(listing[..n]), [Remove(Rule(listing[n]))], d);
      RemoveEffect(Rule(listing[n]), Run(UnlinkRules(listing[..n]), d));
      hide Run, Read;
      assert p.Rule? ==> (p.stem in listing <==> p.stem in listing[..n] || p.stem == listing[n]);
    }
  }

  lemma RuleOpsEffect(s: Sections, listing: seq<string>, d: Disk, p: Path)
    requires Managed(p)
    requires p.Rule? && p.stem !in listing ==> Read(d, p) == None
    ensures Read(Run(RuleOps(s, listing), d), p) ==
            if p.Rule? && s.routingRules.Some? then LastGroup(s.routingRules.value, p.stem) else Read(d, p)
  {
    if s.routingRules.Some? {
      RunConcat(UnlinkRules(listing), GroupOps(s.routingRules.value), d);
      UnlinkRulesEffect(listing, d, p);
      GroupOpsEffect(s.routingRules.value, Run(UnlinkRules(listing), d), p);
    }
  }

  /** Running all section writes gives every managed file its restored contents. */
  lemma ApplyReachesRestored(s: Sections, listing: seq<string>, d: Disk, p: Path)
    requires Managed(p) && Lists(listing, d)
    ensures Read(Run(ApplyOps(s, listing), d), p) == Restored(d, s, p)
  {
    var early, rules, late := DocOps(EarlyWrites(s)), RuleOps(s, listing), DocOps(LateWrites(s));
    var d1 := Run(early, d);
    var d2 := Run(rules, d1);
    RunConcat(early, rules, d);
    RunConcat(early + rules, late, d);
    DocOpsEffect(EarlyWrites(s), d, p);
    EarlyWritten(s, p, Read(d, p));
    RuleOpsEffect(s, listing, d1, p);
    DocOpsEffect(LateWrites(s), d2, p);
    LateWritten(s, p, Read(d2, p));
    hide Run, Read, LastWrite, LastGroup;
  }

  lemma {:induction false} DocOpsSpare(writes: seq<DocWrite>)
    ensures AllSpare(DocOps(writes))
  {
    if writes != [] {
      DocOpsSpare(writes[..|writes| - 1]);
    }
  }

  lemma {:induction false} GroupOpsSpare(groups: seq<Group>)
    ensures AllSpare(GroupOps(groups))
  {
    if groups != [] {
      GroupOpsSpare(groups[..|groups| - 1]);
    }
  }

  lemma ApplySpares(s: Sections, listing: seq<string>)
    ensures AllSpare(ApplyOps(s, listing))
  {
    DocOpsSpare(EarlyWrites(s));
    DocOpsSpare(LateWrites(s));
    if s.routingRules.Some? {
      GroupOpsSpare(s.routingRules.value);
      assert AllSpare(UnlinkRules(listing));
    }
  }

  // ---------------------------------------------------------------------
  // Rollback inside the process
  // ---------------------------------------------------------------------

  /**
   * The in-process rollback. Locking a rule file the snapshot does not know
   * finds the journal pending and runs a whole recovery first, which also clears
   * the journal; the unlinks and rewrites that follow are then repeats.
   */
  function RollbackOps(d: Disk, j: Journal, listing: seq<string>, nested: seq<string>): seq<Operation> {
    (if Prune(j.entries, listing) == [] then [] else RecoveryOps(d, nested)) + UndoOps(j, listing)
  }

  /** The entries agree with each other: a path named twice has one value. */
  ghost predicate Agrees(entries: seq<Entry>, whole: seq<Entry>) {
    forall e :: e in entries ==> Managed(e.path) && Wanted(whole, e.path, None) == e.before
  }

  lemma {:induction false} PruneKeepsSettled(j: Journal, listing: seq<string>, m: nat, d: Disk)
    requires Settled(d, j) && m <= |Prune(j.entries, listing)|
    ensures Settled(Run(Prune(j.entries, listing)[..m], d), j)
  {
    var ops := Prune(j.entries, listing);
    if listing != [] && m <= |Prune(j.entries, listing[..|listing| - 1])| {
      PruneKeepsSettled(j, listing[..|listing| - 1], m, d);
      assert ops[..m] == Prune(j.entries, listing[..|listing| - 1])[..m];
    } else {
      assert ops[..m] == ops;
      PruneSpares(j.entries, listing);
      SparedJournal(ops, d);
      forall p | Managed(p) ensures Read(Run(ops, d), p) == Wanted(j.entries, p, None) {
        PruneEffect(j.entries, listing, d, p);
        WantedOtherwise(j.entries, p, None, None);
      }
    }
  }

  lemma {:induction false} RestoreKeepsSettled(entries: seq<Entry>, j: Journal, m: nat, d: Disk)
    requires Settled(d, j) && Agrees(entries, j.entries) && m <= |RestoreEntries(entries)|
    ensures Settled(Run(RestoreEntries(entries)[..m], d), j)
  {
    var ops := RestoreEntries(entries);
    if entries == [] {
      assert ops[..m] == [];
    } else {
      var n := |entries| - 1;
      var init := RestoreEntries(entries[..n]);
      RunPrefix(init, RestoreEntry(entries[n]), m, d);
      RunWhole(init, d);
      assert ops == init + RestoreEntry(entries[n]);
      hide Run, Settled, RestoreEntries, RestoreEntry, Wanted;
      if m <= |init| {
        RestoreKeepsSettled(entries[..n], j, m, d);
      } else {
        RestoreKeepsSettled(entries[..n], j, |init|, d);
        EntryKeepsSettled(entries[n], j, m - |init|, Run(init, d));
      }
    }
  }

  lemma EntryKeepsSettled(e: Entry, j: Journal, m: nat, d: Disk)
    requires Settled(d, j) && Agrees([e], j.entries) && m <= |RestoreEntry(e)|
    ensures Settled(Run(RestoreEntry(e)[..m], d), j)
  {
    var ops := RestoreEntry(e);
    assert e in [e];
    if m == |ops| {
      assert ops[..m] == ops;
      RestoreEntryEffect(e, d);
      SparedJournal(ops, d);
    } else if m == 0 {
      assert ops[..m] == [];
    } else {
      var first := [Create(Temp(e.path), Data(e.before.value))];
      assert ops[..m] == first;
      assert first[..0] == [];
      assert Run(first, d) == d[Temp(e.path) := Data(e.before.value)];
    }
  }

  lemma UndoKeepsSettled(j: Journal, listing: seq<string>, m: nat, d: Disk)
    requires j.prune && Settled(d, j) && Agrees(j.entries, j.entries) && m <= |UndoOps(j, listing)|
    ensures Settled(Run(UndoOps(j, listing)[..m], d), j)
  {
    var prune, restore := Prune(j.entries, listing), RestoreEntries(j.entries);
    RunPrefix(prune, restore, m, d);
    RunWhole(prune, d);
    if m <= |prune| {
      PruneKeepsSettled(j, listing, m, d);
    } else {
      PruneKeepsSettled(j, listing, |prune|, d);
      RestoreKeepsSettled(j.entries, j, m - |prune|, Run(prune, d));
    }
  }

  /** Every point of a rollback is recoverable, and its end is the snapshot. */
  lemma RollbackKeeps(d: Disk, j: Journal, listing: seq<string>, nested: seq<string>, m: nat)
    requires Undoable(j) && Agrees(j.entries, j.entries)
    requires JournalPath in d && d[JournalPath] == Rollback(j)
    requires Lists(listing, d) && Lists(nested, d)
    requires m <= |RollbackOps(d, j, listing, nested)|
    ensures Recoverable(Run(RollbackOps(d, j, listing, nested)[..m], d), j)
    ensures m == |RollbackOps(d, j, listing, nested)| ==>
              AtSnapshot(Run(RollbackOps(d, j, listing, nested)[..m], d), j.entries)
  {
    var ops, undo := RollbackOps(d, j, listing, nested), UndoOps(j, listing);
    if Prune(j.entries, listing) == [] {
      assert ops == undo;
      UndoSpares(j, listing);
      PrefixSpares(undo, m);
      SparedJournal(undo[..m], d);
      UndoReachesSnapshot(j, listing, d);
      RunWhole(undo, d);
    } else {
      var recovery := RecoveryOps(d, nested);
      RunPrefix(recovery, undo, m, d);
      RunWhole(recovery, d);
      hide Run, UndoOps, RecoveryOps, AtSnapshot, Undoable, Agrees;
      if m <= |recovery| {
        RecoveryKeeps(d, j, nested, m);
      }
      if m >= |recovery| {
        RecoveryKeeps(d, j, nested, |recovery|);
        UndoKeepsSettled(j, listing, m - |recovery|, Run(recovery, d));
      }
    }
  }

  // ---------------------------------------------------------------------
  // The whole transaction
  // ---------------------------------------------------------------------

  /**
   * How a transaction goes: all sections applied, or an exception after `at`
   * operations (an interrupted atomic write removes its temporary file), with
   * the directory listings the rollback sees.
   */
  datatype Ending =
    | Commit
    | Fail(at: nat, orphan: Option<Path>, listing: seq<string>, nested: seq<string>)

  datatype Transaction = Transaction(before: Disk, snapshot: seq<string>, sections: Sections,
      rules: seq<string>, ending: Ending)

  function JournalOf(t: Transaction): Journal {
    Journal(Snapshot(t.before, t.snapshot), true)
  }

  function WriteJournal(t: Transaction): seq<Operation> {
    AtomicWrite(JournalPath, Rollback(JournalOf(t)))
  }

  /** What has been applied when the exception is raised. */
  function Applied(t: Transaction): seq<Operation>
    requires t.ending.Fail? ==> t.ending.at <= |ApplyOps(t.sections, t.rules)|
  {
    match t.ending
    case Commit => ApplyOps(t.sections, t.rules)
    case Fail(at, orphan, _, _) =>
      ApplyOps(t.sections, t.rules)[..at] + (if orphan.Some? then [Remove(Temp(orphan.value))] else [])
  }

  function Body(t: Transaction): seq<Operation>
    requires t.ending.Fail? ==> t.ending.at <= |ApplyOps(t.sections, t.rules)|
  {
    match t.ending
    case Commit => Applied(t)
    case Fail(_, _, _, _) => Applied(t) + RollbackOf(t)
  }

  function Program(t: Transaction): seq<Operation>
    requires t.ending.Fail? ==> t.ending.at <= |ApplyOps(t.sections, t.rules)|
  {
    WriteJournal(t) + Body(t) + [Remove(JournalPath)]
  }

  /** No transaction is pending, and every listing is a listing of the disk at its time. */
  ghost predicate Valid(t: Transaction) {
    && JournalPath !in t.before
    && Lists(t.snapshot, t.before)
    && Lists(t.rules, t.before)
    && (t.ending.Fail? ==>
         && t.ending.at <= |ApplyOps(t.sections, t.rules)|
         && Lists(t.ending.listing, Run(WriteJournal(t) + Applied(t), t.before))
         && Lists(t.ending.nested, Run(WriteJournal(t) + Applied(t), t.before)))
  }

  lemma JournalUndoable(t: Transaction)
    requires Valid(t)
    ensures Undoable(JournalOf(t))
    ensures Agrees(JournalOf(t).entries, JournalOf(t).entries)
  {
    var entries, targets := JournalOf(t).entries, Targets(t.snapshot);
    forall doc: Document ensures Named(entries, Doc(doc)) {
      WantedOfState(t.before, targets, Doc(doc), None);
      TargetsOf(t.snapshot, Doc(doc));
    }
    forall e | e in entries ensures Managed(e.path) && Wanted(entries, e.path, None) == e.before {
      WantedOfState(t.before, targets, e.path, None);
      TargetsOf(t.snapshot, e.path);
    }
  }

  lemma AppliedSpares(t: Transaction)
    requires Valid(t)
    ensures AllSpare(Applied(t))
  {
    ApplySpares(t.sections, t.rules);
  }

  lemma JournalWritten(t: Transaction)
    ensures var d := Run(WriteJournal(t), t.before); JournalPath in d && d[JournalPath] == Rollback(JournalOf(t))
  {
    AtomicWriteEffect(JournalPath, Rollback(JournalOf(t)), t.before);
  }

  lemma BeforeJournal(t: Transaction, k: nat)
    requires Valid(t) && k < 2
    ensures Settled(Run(WriteJournal(t)[..k], t.before), JournalOf(t))
  {
    var d := Run(WriteJournal(t)[..k], t.before);
    if k == 0 {
      assert WriteJournal(t)[..k] == [];
    } else {
      var first := [Create(Temp(JournalPath), Rollback(JournalOf(t)))];
      assert WriteJournal(t)[..k] == first;
      assert first[..0] == [];
      assert Run(first, t.before) == t.before[Temp(JournalPath) := Rollback(JournalOf(t))];
    }
    assert SameManaged(d, t.before);
    SnapshotIsState(t.before, t.snapshot, d);
  }

  /** After the journal is written, every point of the body is recoverable. */
  lemma BodyRecoverable(t: Transaction, m: nat)
    requires Valid(t) && m <= |Body(t)|
    ensures Recoverable(Run(WriteJournal(t) + Body(t)[..m], t.before), JournalOf(t))
    ensures t.ending.Fail? && m == |Body(t)| ==>
              AtSnapshot(Run(WriteJournal(t) + Body(t)[..m], t.before), JournalOf(t).entries)
  {
    var applied := Applied(t);
    var d1 := Run(WriteJournal(t), t.before);
    RunConcat(WriteJournal(t), Body(t)[..m], t.before);
    if t.ending.Commit? {
      AppliedRecoverable(t, m);
    } else {
      assert Body(t) == applied + RollbackOf(t);
      RunPrefix(applied, RollbackOf(t), m, d1);
      RunConcat(WriteJournal(t), applied, t.before);
      hide Run, Recoverable, AtSnapshot, Applied, RollbackOf, WriteJournal, JournalOf;
      if m <= |applied| {
        AppliedRecoverable(t, m);
      }
      if m >= |applied| {
        RollbackRecoverable(t, m - |applied|);
      }
    }
  }

  lemma AppliedRecoverable(t: Transaction, m: nat)
    requires Valid(t) && m <= |Applied(t)|
    ensures Recoverable(Run(Applied(t)[..m], Run(WriteJournal(t), t.before)), JournalOf(t))
  {
    JournalWritten(t);
    AppliedSpares(t);
    PrefixSpares(Applied(t), m);
    SparedJournal(Applied(t)[..m], Run(WriteJournal(t), t.before));
  }

  function RollbackOf(t: Transaction): seq<Operation>
    requires t.ending.Fail? && t.ending.at <= |ApplyOps(t.sections, t.rules)|
  {
    RollbackOps(Run(WriteJournal(t) + Applied(t), t.before), JournalOf(t), t.ending.listing, t.ending.nested)
  }

  lemma RollbackRecoverable(t: Transaction, m: nat)
    requires Valid(t) && t.ending.Fail? && m <= |RollbackOf(t)|
    ensures var d := Run(WriteJournal(t) + Applied(t), t.before);
            && Recoverable(Run(RollbackOf(t)[..m], d), JournalOf(t))
            && (m == |RollbackOf(t)| ==> AtSnapshot(Run(RollbackOf(t)[..m], d), JournalOf(t).entries))
  {
    JournalWritten(t);
    AppliedSpares(t);
    RunConcat(WriteJournal(t), Applied(t), t.before);
    SparedJournal(Applied(t), Run(WriteJournal(t), t.before));
    JournalUndoable(t);
    hide Run, Applied, WriteJournal, JournalOf;
    RollbackKeeps(Run(WriteJournal(t) + Applied(t), t.before), JournalOf(t), t.ending.listing, t.ending.nested, m);
  }

  lemma ProgramPrefix(t: Transaction, k: nat)
    requires t.ending.Fail? ==> t.ending.at <= |ApplyOps(t.sections, t.rules)|
    requires k < |Program(t)|
    ensures Program(t)[..k] == if k < 2 then WriteJournal(t)[..k] else WriteJournal(t) + Body(t)[..k - 2]
  {
    hide Body;
  }

  lemma CrashPoint(t: Transaction, k: nat)
    requires Valid(t) && k < |Program(t)|
    ensures Recoverable(Run(Program(t)[..k], t.before), JournalOf(t))
  {
    ProgramPrefix(t, k);
    assert k >= 2 ==> k - 2 <= |Body(t)|;
    hide Recoverable, Run, Program, Body;
    if k < 2 {
      BeforeJournal(t, k);
    } else {
      BodyRecoverable(t, k - 2);
    }
  }

  /** The end of the program: no journal, and either the restored state or the snapshot. */
  lemma Completed(t: Transaction)
    requires Valid(t)
    ensures var d := Run(Program(t), t.before);
            && JournalPath !in d
            && (t.ending.Commit? ==> forall p :: Managed(p) ==> Read(d, p) == Restored(t.before, t.sections, p))
            && (t.ending.Fail? ==> AtSnapshot(d, JournalOf(t).entries))
  {
    var before := Run(WriteJournal(t) + Body(t), t.before);
    RunConcat(WriteJournal(t) + Body(t), [Remove(JournalPath)], t.before);
    RemoveEffect(JournalPath, before);
    ClearedJournal(before);
    if t.ending.Fail? {
      BodyRecoverable(t, |Body(t)|);
      assert Body(t)[..|Body(t)|] == Body(t);
    } else {
      CommitReads(t);
    }
  }

  lemma CommitReads(t: Transaction)
    requires Valid(t) && t.ending.Commit?
    ensures forall p :: Managed(p) ==>
              Read(Run(WriteJournal(t) + Body(t), t.before), p) == Restored(t.before, t.sections, p)
  {
    var d1 := Run(WriteJournal(t), t.before);
    RunConcat(WriteJournal(t), Body(t), t.before);
    AtomicWriteEffect(JournalPath, Rollback(JournalOf(t)), t.before);
    assert Lists(t.rules, d1) && SameManaged(d1, t.before);
    hide Run, Lists, ApplyOps, LastGroup, Replacement;
    forall p | Managed(p) ensures Read(Run(Body(t), d1), p) == Restored(t.before, t.sections, p) {
      ApplyReachesRestored(t.sections, t.rules, d1, p);
    }
  }

  /**
   * Crash atomicity. The process dies after any number of operations of any
   * transaction; then any number of recoveries start and die; then one recovery
   * runs to its end. The managed files are what they were before the restore,
   * or, only if the transaction had completed, what it restored.
   */
  lemma CrashAtomicity(t: Transaction, k: nat, attempts: seq<Attempt>, final: seq<string>)
    requires Valid(t) && k <= |Program(t)|
    requires Possible(Run(Program(t)[..k], t.before), attempts)
    requires Lists(final, AfterAttempts(Run(Program(t)[..k], t.before), attempts))
    ensures var crashed := Run(Program(t)[..k], t.before);
            var found := AfterAttempts(crashed, attempts);
            var recovered := Run(RecoveryOps(found, final), found);
            && JournalPath !in recovered
            && (forall p :: Managed(p) ==>
                  Read(recovered, p) ==
                  if t.ending.Commit? && k == |Program(t)| then Restored(t.before, t.sections, p) else Read(t.before, p))
  {
    var crashed := Run(Program(t)[..k], t.before);
    var j := JournalOf(t);
    JournalUndoable(t);
    Completed(t);
    if k == |Program(t)| {
      assert Program(t)[..k] == Program(t);
    }
    if t.ending.Commit? && k == |Program(t)| {
      NothingPending(crashed, attempts);
    } else {
      if k < |Program(t)| {
        CrashPoint(t, k);
      }
      AttemptsKeep(crashed, j, attempts);
      var found := AfterAttempts(crashed, attempts);
      var recovery := RecoveryOps(found, final);
      RecoveryKeeps(found, j, final, |recovery|);
      assert recovery[..|recovery|] == recovery;
      SnapshotIsState(t.before, t.snapshot, Run(recovery, found));
    }
  }

  /** Without a journal, recoveries change nothing. */
  lemma {:induction false} NothingPending(d: Disk, attempts: seq<Attempt>)
    requires JournalPath !in d && Possible(d, attempts)
    ensures AfterAttempts(d, attempts) == d
    decreases attempts
  {
    if attempts != [] {
      assert AfterAttempt(d, attempts[0]) == d;
      NothingPending(d, attempts[1..]);
    }
  }
}
