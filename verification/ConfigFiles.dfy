/**
 * The configuration directory as a map from paths to contents, and the
 * file-system operations the stores perform on it. A crash stops a program
 * between two operations; every operation already done persists.
 */
module ConfigFiles {
  import opened Common

  /** The nine fixed documents a restore may rewrite. */
  datatype Document =
    | ConfigToml | ProfilesJson | ProvidersJson | AppPolicyJson | NodeGroupsJson
    | ChainsJson | StateToml | DnsPolicyJson | MetricsJson

  datatype Path =
    | Doc(doc: Document)
    | Rule(stem: string)       // rules/<stem>.json
    | JournalPath              // .watchdogvpn-restore-transaction.json
    | Temp(target: Path)       // the temporary file an atomic write renames

  /** What one file was before the transaction; None when it did not exist. */
  datatype Entry = Entry(path: Path, before: Option<Bytes>)

  datatype Journal = Journal(entries: seq<Entry>, prune: bool)

  datatype Content = Data(bytes: Bytes) | Rollback(journal: Journal)

  type Disk = map<Path, Content>

  predicate Managed(p: Path) {
    p.Doc? || p.Rule?
  }

  /** Contents of a file as a reader sees them. */
  function Read(d: Disk, p: Path): Option<Bytes> {
    if p in d && d[p].Data? then Some(d[p].bytes) else None
  }

  ghost predicate SameManaged(a: Disk, b: Disk) {
    forall p :: Managed(p) ==> Read(a, p) == Read(b, p)
  }

  predicate Pending(d: Disk) {
    JournalPath in d && d[JournalPath].Rollback?
  }

  /** A directory listing of the rule files, in whatever order the system returns it. */
  predicate Lists(listing: seq<string>, d: Disk) {
    && Distinct(listing)
    && (forall stem :: stem in listing ==> Rule(stem) in d)
    && (forall p :: p in d && p.Rule? ==> p.stem in listing)
  }

  // ---------------------------------------------------------------------
  // Operations and programs
  // ---------------------------------------------------------------------

  datatype Operation =
    | Create(path: Path, content: Content)   // write and fsync a temporary file
    | Rename(from: Path, to: Path)           // os.replace
    | Remove(path: Path)                     // unlink, missing is fine

  function Do(op: Operation, d: Disk): Disk {
    match op
    case Create(p, c) => d[p := c]
    case Rename(from, to) => if from in d then (d - {from})[to := d[from]] else d
    case Remove(p) => d - {p}
  }

  function Run(ops: seq<Operation>, d: Disk): Disk {
    if ops == [] then d else Do(ops[|ops| - 1], Run(ops[..|ops| - 1], d))
  }

  lemma {:induction false} RunConcat(a: seq<Operation>, b: seq<Operation>, d: Disk)
    ensures Run(a + b, d) == Run(b, Run(a, d))
  {
    if b == [] {
      assert a + b == a;
    } else {
      RunConcat(a, b[..|b| - 1], d);
      assert (a + b)[..|a + b| - 1] == a + b[..|b| - 1];
    }
  }

  /** A prefix of a two-part program: part of the first, or all of it and part of the second. */
  lemma RunPrefix(a: seq<Operation>, b: seq<Operation>, m: nat, d: Disk)
    requires m <= |a| + |b|
    ensures m <= |a| ==> Run((a + b)[..m], d) == Run(a[..m], d)
    ensures m >= |a| ==> Run((a + b)[..m], d) == Run(b[..m - |a|], Run(a, d))
  {
    if m <= |a| {
      assert (a + b)[..m] == a[..m];
    }
    if m >= |a| {
      assert (a + b)[..m] == a + b[..m - |a|];
      RunConcat(a, b[..m - |a|], d);
    }
  }

  lemma RunWhole(a: seq<Operation>, d: Disk)
    ensures Run(a[..|a|], d) == Run(a, d)
  {
    assert a[..|a|] == a;
  }

  function AtomicWrite(p: Path, c: Content): seq<Operation> {
    [Create(Temp(p), c), Rename(Temp(p), p)]
  }

  lemma AtomicWriteEffect(p: Path, c: Content, d: Disk)
    ensures Run(AtomicWrite(p, c), d) == (d - {Temp(p)})[p := c]
  {
    var first := [Create(Temp(p), c)];
    assert AtomicWrite(p, c)[..1] == first;
    assert first[..0] == [];
    assert Run(first, d) == d[Temp(p) := c];
    assert d[Temp(p) := c] - {Temp(p)} == d - {Temp(p)};
  }

  /** An operation that leaves the journal as it is. */
  predicate Spares(op: Operation) {
    match op
    case Create(p, _) => p != JournalPath
    case Rename(from, to) => from != JournalPath && to != JournalPath
    case Remove(p) => p != JournalPath
  }

  predicate AllSpare(ops: seq<Operation>) {
    forall op :: op in ops ==> Spares(op)
  }

  lemma {:induction false} SparedJournal(ops: seq<Operation>, d: Disk)
    requires AllSpare(ops)
    ensures JournalPath in Run(ops, d) <==> JournalPath in d
    ensures JournalPath in d ==> Run(ops, d)[JournalPath] == d[JournalPath]
  {
    if ops != [] {
      SparedJournal(ops[..|ops| - 1], d);
      assert Spares(ops[|ops| - 1]);
    }
  }
}
