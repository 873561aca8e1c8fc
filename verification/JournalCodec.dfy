/**
 * The restore journal on disk: base64 as in section 4 of RFC 4648, relative
 * path names, and the document that is written and parsed back.
 */
module JournalCodec {
  import opened Common

  // ---------------------------------------------------------------------
  // Base64
  // ---------------------------------------------------------------------

  type Sextet = n: nat | n < 64

  function ToChar(v: Sextet): char {
    if v < 26 then ('A' as int + v) as char
    else if v < 52 then ('a' as int + v - 26) as char
    else if v < 62 then ('0' as int + v - 52) as char
    else if v == 62 then '+' else '/'
  }

  function FromChar(c: char): Option<Sextet> {
    if 'A' <= c <= 'Z' then Some(c as int - 'A' as int)
    else if 'a' <= c <= 'z' then Some(c as int - 'a' as int + 26)
    else if '0' <= c <= '9' then Some(c as int - '0' as int + 52)
    else if c == '+' then Some(62)
    else if c == '/' then Some(63)
    else None
  }

  lemma CharInverse(v: Sextet)
    ensures FromChar(ToChar(v)) == Some(v) && ToChar(v) != '='
  {
  }

  function Encode3(a: int, b: int, c: int): string
    requires 0 <= a < 256 && 0 <= b < 256 && 0 <= c < 256
  {
    [ToChar(a / 4), ToChar(a % 4 * 16 + b / 16), ToChar(b % 16 * 4 + c / 64), ToChar(c % 64)]
  }

  function Encode(data: Bytes): string {
    if |data| == 0 then ""
    else if |data| == 1 then Encode3(data[0] as int, 0, 0)[..2] + "=="
    else if |data| == 2 then Encode3(data[0] as int, data[1] as int, 0)[..3] + "="
    else Encode3(data[0] as int, data[1] as int, data[2] as int) + Encode(data[3..])
  }

  /** The bytes of four sextets. */
  function Bytes3(p: Sextet, q: Sextet, r: Sextet, s: Sextet): (result: Bytes)
    ensures |result| == 3
  {
    [(p * 4 + q / 16) as byte, (q % 16 * 16 + r / 4) as byte, (r % 4 * 64 + s) as byte]
  }

  /** Strict decoding: only the alphabet, padding only where the last quantum needs it. */
  function Decode(text: string): Option<Bytes> {
    if |text| == 0 then Some([])
    else if |text| < 4 then None
    else
      var p, q, r, s := FromChar(text[0]), FromChar(text[1]), FromChar(text[2]), FromChar(text[3]);
      if p.None? || q.None? then None
      else if |text| == 4 && text[2] == '=' && text[3] == '=' then Some(Bytes3(p.value, q.value, 0, 0)[..1])
      else if r.None? then None
      else if |text| == 4 && text[3] == '=' then Some(Bytes3(p.value, q.value, r.value, 0)[..2])
      else if s.None? then None
      else
        match Decode(text[4..])
        case None => None
        case Some(rest) => Some(Bytes3(p.value, q.value, r.value, s.value) + rest)
  }

  /** Four sextets cut from three bytes give the bytes back. */
  lemma QuantumInverse(a: int, b: int, c: int, p: Sextet, q: Sextet, r: Sextet, s: Sextet)
    requires 0 <= a < 256 && 0 <= b < 256 && 0 <= c < 256
    requires p == a / 4 && q == a % 4 * 16 + b / 16 && r == b % 16 * 4 + c / 64 && s == c % 64
    ensures Bytes3(p, q, r, s) == [a as byte, b as byte, c as byte]
  {
    assert q / 16 == a % 4 && q % 16 == b / 16;
    assert r / 4 == b % 16 && r % 4 == c / 64;
  }

  lemma DecodeQuantum(p: Sextet, q: Sextet, r: Sextet, s: Sextet, rest: string)
    requires Decode(rest).Some?
    ensures Decode([ToChar(p), ToChar(q), ToChar(r), ToChar(s)] + rest) == Some(Bytes3(p, q, r, s) + Decode(rest).value)
  {
    var text := [ToChar(p), ToChar(q), ToChar(r), ToChar(s)] + rest;
    CharInverse(p);
    CharInverse(q);
    CharInverse(r);
    CharInverse(s);
    assert text[4..] == rest;
    hide ToChar, FromChar, Bytes3;
  }

  lemma DecodePadded(p: Sextet, q: Sextet, r: Sextet)
    ensures Decode([ToChar(p), ToChar(q), '=', '=']) == Some(Bytes3(p, q, 0, 0)[..1])
    ensures Decode([ToChar(p), ToChar(q), ToChar(r), '=']) == Some(Bytes3(p, q, r, 0)[..2])
  {
    CharInverse(p);
    CharInverse(q);
    CharInverse(r);
    hide ToChar, Bytes3;
  }

  lemma OneByte(x: byte)
    ensures Decode(Encode([x])) == Some([x])
  {
    var a := x as int;
    var p, q := a / 4, a % 4 * 16;
    QuantumInverse(a, 0, 0, p, q, 0, 0);
    DecodePadded(p, q, 0);
    assert Encode([x]) == [ToChar(p), ToChar(q), '=', '='];
    hide Decode, Encode, ToChar, Bytes3;
    assert [x, 0, 0][..1] == [x];
  }

  lemma TwoBytes(x: byte, y: byte)
    ensures Decode(Encode([x, y])) == Some([x, y])
  {
    var a, b := x as int, y as int;
    var p, q, r := a / 4, a % 4 * 16 + b / 16, b % 16 * 4;
    QuantumInverse(a, b, 0, p, q, r, 0);
    DecodePadded(p, q, r);
    assert Encode([x, y]) == [ToChar(p), ToChar(q), ToChar(r), '='];
    hide Decode, Encode, ToChar, Bytes3;
    assert [x, y, 0][..2] == [x, y];
  }

  lemma DecodeThree(x: byte, y: byte, z: byte, rest: string)
    requires Decode(rest).Some?
    ensures Decode(Encode3(x as int, y as int, z as int) + rest) == Some([x, y, z] + Decode(rest).value)
  {
    hide Decode, ToChar, Bytes3;
    var a, b, c := x as int, y as int, z as int;
    var p, q, r, s := a / 4, a % 4 * 16 + b / 16, b % 16 * 4 + c / 64, c % 64;
    QuantumInverse(a, b, c, p, q, r, s);
    DecodeQuantum(p, q, r, s, rest);
  }

  lemma ThreeBytes(data: Bytes)
    requires |data| >= 3 && Decode(Encode(data[3..])) == Some(data[3..])
    ensures Decode(Encode(data)) == Some(data)
  {
    hide Decode, Encode3, ToChar, Bytes3;
    DecodeThree(data[0], data[1], data[2], Encode(data[3..]));
    assert data == [data[0], data[1], data[2]] + data[3..];
  }

  /** Decoding an encoding gives the bytes back, for all contents. */
  lemma {:induction false} Base64RoundTrip(data: Bytes)
    ensures Decode(Encode(data)) == Some(data)
  {
    if data != [] {
      hide Decode, Encode;
      if |data| == 1 {
        OneByte(data[0]);
        assert data == [data[0]];
      } else if |data| == 2 {
        TwoBytes(data[0], data[1]);
        assert data == [data[0], data[1]];
      } else {
        Base64RoundTrip(data[3..]);
        ThreeBytes(data);
      }
    }
  }

  // ---------------------------------------------------------------------
  // Path names
  // ---------------------------------------------------------------------

  /** A path as its components. Components are non-empty, contain no slash and are not ".". */
  type Parts = seq<string>

  predicate Component(c: string) {
    c != "" && c != "." && '/' !in c
  }

  predicate Normal(parts: Parts) {
    forall i :: 0 <= i < |parts| ==> Component(parts[i])
  }

  function Join(parts: Parts): string {
    if parts == [] then "."
    else if |parts| == 1 then parts[0]
    else Join(parts[..|parts| - 1]) + "/" + parts[|parts| - 1]
  }

  /** Position of the last slash, or -1. */
  function LastSlash(s: string): (i: int)
    ensures -1 <= i < |s|
  {
    if s == "" then -1 else if s[|s| - 1] == '/' then |s| - 1 else LastSlash(s[..|s| - 1])
  }

  function Split(s: string): seq<string> {
    var i := LastSlash(s);
    if i < 0 then [s] else Split(s[..i]) + [s[i + 1..]]
  }

  function DropTrivial(parts: seq<string>): Parts {
    if parts == [] then []
    else
      var last := parts[|parts| - 1];
      DropTrivial(parts[..|parts| - 1]) + (if last == "" || last == "." then [] else [last])
  }

  /** The components of a relative name. */
  function ParsePath(name: string): Parts {
    DropTrivial(Split(name))
  }

  predicate IsAbsolute(name: string) {
    name != "" && name[0] == '/'
  }

  lemma {:induction false} LastSlashAfter(a: string, b: string)
    requires '/' !in b
    ensures LastSlash(a + "/" + b) == |a|
    ensures LastSlash(b) == -1
  {
    if b == "" {
      assert a + "/" + b == a + "/";
    } else {
      var n := |b| - 1;
      LastSlashAfter(a, b[..n]);
      assert (a + "/" + b)[..|a| + 1 + n] == a + "/" + b[..n];
    }
  }

  lemma SplitAfter(head: string, tail: string)
    requires '/' !in tail
    ensures Split(head + "/" + tail) == Split(head) + [tail]
    ensures Split(tail) == [tail]
  {
    var whole := head + "/" + tail;
    LastSlashAfter(head, tail);
    hide LastSlash;
    assert whole[..|head|] == head;
    assert whole[|head| + 1..] == tail;
  }

  lemma {:induction false} SplitJoin(parts: Parts)
    requires Normal(parts) && parts != []
    ensures Split(Join(parts)) == parts
  {
    var n := |parts| - 1;
    assert Component(parts[n]);
    if n == 0 {
      SplitAfter("", parts[0]);
    } else {
      SplitJoin(parts[..n]);
      SplitAfter(Join(parts[..n]), parts[n]);
    }
  }

  lemma {:induction false} NothingDropped(parts: Parts)
    requires Normal(parts)
    ensures DropTrivial(parts) == parts
  {
    if parts != [] {
      NothingDropped(parts[..|parts| - 1]);
    }
  }

  lemma {:induction false} JoinNotAbsolute(parts: Parts)
    requires Normal(parts)
    ensures !IsAbsolute(Join(parts)) && Join(parts) != ""
  {
    if |parts| > 1 {
      JoinNotAbsolute(parts[..|parts| - 1]);
    } else if |parts| == 1 {
      assert parts[0][0] in parts[0];
    }
  }

  /** A written name parses to the components it was written from. */
  lemma PathRoundTrip(parts: Parts)
    requires Normal(parts)
    ensures ParsePath(Join(parts)) == parts
    ensures !IsAbsolute(Join(parts))
  {
    JoinNotAbsolute(parts);
    if parts == [] {
      assert Split(".") == ["."] by {
        LastSlashAfter("", ".");
      }
      assert ["."][..0] == [];
    } else {
      SplitJoin(parts);
      NothingDropped(parts);
    }
  }

  // ---------------------------------------------------------------------
  // The journal document
  // ---------------------------------------------------------------------

  datatype Json =
    | Null | Bool(b: bool) | Number(n: real) | Text(s: string)
    | List(items: seq<Json>) | Object(fields: map<string, Json>)

  const JOURNAL_NAME := ".watchdogvpn-restore-transaction.json"

  const KIND := "watchdogvpn-restore-rollback"

  /** File contents by path; None records that the file did not exist. */
  type Files = map<Parts, Option<Bytes>>

  datatype WriteError = Pending | NotUnderDirectory | NamesItself

  datatype ParseError =
    | NotAnObject | UnsupportedVersion | UnsupportedKind | BadStructure
    | BadEntry | BadName | DuplicateEntry | BadContent

  function WriteEntry(dir: Parts, path: Parts, content: Option<Bytes>): Result<Json, WriteError> {
    if !(dir <= path) then Err(NotUnderDirectory)
    else
      var relative := path[|dir|..];
      if relative != [] && relative[|relative| - 1] == JOURNAL_NAME then Err(NamesItself)
      else Ok(Object(map["name" := Text(Join(relative)),
                         "content_b64" := if content.None? then Null else Text(Encode(content.value))]))
  }

  function WriteEntries(dir: Parts, snapshot: Files, order: seq<Parts>): Result<seq<Json>, WriteError>
    requires forall p :: p in order ==> p in snapshot
  {
    if order == [] then Ok([])
    else
      var last := order[|order| - 1];
      match WriteEntries(dir, snapshot, order[..|order| - 1])
      case Err(e) => Err(e)
      case Ok(items) =>
        match WriteEntry(dir, last, snapshot[last])
        case Err(e) => Err(e)
        case Ok(item) => Ok(items + [item])
  }

  function Document(items: seq<Json>, prune: bool): Json {
    Object(map["schema_version" := Number(2.0), "kind" := Text(KIND),
               "prune_unlisted_rule_files" := Bool(prune), "files" := List(items)])
  }

  function Get(fields: map<string, Json>, key: string, default: Json): Json {
    if key in fields then fields[key] else default
  }

  /** Adds one parsed entry; `true` counts as the number one, as it compares equal to it. */
  function ParseEntry(item: Json, dir: Parts, files: Files): Result<Files, ParseError> {
    if !item.Object? || !Get(item.fields, "name", Null).Text? then Err(BadEntry)
    else
      var name := item.fields["name"].s;
      var relative := ParsePath(name);
      if relative == [] || IsAbsolute(name) || ".." in relative then Err(BadName)
      else
        var path := dir + relative;
        if path in files then Err(DuplicateEntry)
        else
          match Get(item.fields, "content_b64", Null)
          case Null => Ok(files[path := None])
          case Text(encoded) =>
            if Decode(encoded).None? then Err(BadContent) else Ok(files[path := Some(Decode(encoded).value)])
          case _ => Err(BadContent)
  }

  function ParseEntries(items: seq<Json>, dir: Parts): Result<Files, ParseError> {
    if items == [] then Ok(map[])
    else
      match ParseEntries(items[..|items| - 1], dir)
      case Err(e) => Err(e)
      case Ok(files) => ParseEntry(items[|items| - 1], dir, files)
  }

  predicate VersionOne(version: Json) {
    version == Number(1.0) || version == Bool(true)
  }

  function ParseDocument(data: Json, dir: Parts): Result<(Files, bool), ParseError> {
    if !data.Object? then Err(NotAnObject)
    else
      var version := Get(data.fields, "schema_version", Null);
      if !VersionOne(version) && version != Number(2.0) then Err(UnsupportedVersion)
      else if Get(data.fields, "kind", Null) != Text(KIND) then Err(UnsupportedKind)
      else
        var prune := Get(data.fields, if VersionOne(version) then "remove_unlisted_json" else "prune_unlisted_rule_files", Bool(false));
        var entries := Get(data.fields, "files", Null);
        if !prune.Bool? || !entries.List? then Err(BadStructure)
        else
          match ParseEntries(entries.items, dir)
          case Err(e) => Err(e)
          case Ok(files) => Ok((files, prune.b))
  }

  // ---------------------------------------------------------------------
  // Round trip
  // ---------------------------------------------------------------------

  /** The journal can be written: every path is under the directory and none is the journal. */
  predicate Writable(dir: Parts, p: Parts) {
    dir <= p && (p == dir || p[|p| - 1] != JOURNAL_NAME)
  }

  /** The name written for the path is one the parser accepts. */
  predicate Recoverable(dir: Parts, p: Parts)
    requires dir <= p
  {
    p != dir && ".." !in p[|dir|..]
  }

  function Restrict(snapshot: Files, order: seq<Parts>): Files
    requires forall p :: p in order ==> p in snapshot
  {
    map p | p in order :: snapshot[p]
  }

  ghost predicate Enumerates(order: seq<Parts>, snapshot: Files) {
    && Distinct(order)
    && (forall p :: p in order <==> p in snapshot)
    && (forall p :: p in snapshot ==> Normal(p))
  }

  predicate AllWritable(dir: Parts, order: seq<Parts>) {
    order == [] || (AllWritable(dir, order[..|order| - 1]) && Writable(dir, order[|order| - 1]))
  }

  predicate AllRecoverable(dir: Parts, order: seq<Parts>) {
    order == [] ||
    (AllRecoverable(dir, order[..|order| - 1]) && dir <= order[|order| - 1] && Recoverable(dir, order[|order| - 1]))
  }

  lemma {:induction false} WriteSucceeds(dir: Parts, snapshot: Files, order: seq<Parts>)
    requires forall p :: p in order ==> p in snapshot
    ensures WriteEntries(dir, snapshot, order).Ok? <==> AllWritable(dir, order)
  {
    if order != [] {
      var n := |order| - 1;
      WriteSucceeds(dir, snapshot, order[..n]);
      WriteEntryOk(dir, order[n], snapshot[order[n]]);
    }
  }

  lemma WriteEntryOk(dir: Parts, p: Parts, content: Option<Bytes>)
    ensures WriteEntry(dir, p, content).Ok? <==> Writable(dir, p)
  {
    if dir <= p && p != dir {
      assert p[|dir|..][|p| - |dir| - 1] == p[|p| - 1];
    }
  }

  /** One written entry parses back to its path and contents, or is rejected for its name. */
  lemma EntryRoundTrip(dir: Parts, p: Parts, content: Option<Bytes>, files: Files)
    requires Normal(p) && WriteEntry(dir, p, content).Ok? && p !in files
    ensures dir <= p
    ensures ParseEntry(WriteEntry(dir, p, content).value, dir, files) ==
            if Recoverable(dir, p) then Ok(files[p := content]) else Err(BadName)
  {
    var relative := p[|dir|..];
    PathRoundTrip(relative);
    assert dir + relative == p;
    if content.Some? {
      Base64RoundTrip(content.value);
    }
    hide ParsePath, Join, IsAbsolute, Encode, Decode;
  }

  lemma RestrictSnoc(snapshot: Files, order: seq<Parts>)
    requires order != [] && Distinct(order) && forall p :: p in order ==> p in snapshot
    ensures var n := |order| - 1;
            && order[n] !in Restrict(snapshot, order[..n])
            && Restrict(snapshot, order) == Restrict(snapshot, order[..n])[order[n] := snapshot[order[n]]]
  {
    assert order == order[..|order| - 1] + [order[|order| - 1]];
  }

  lemma {:induction false} EntriesRoundTrip(dir: Parts, snapshot: Files, order: seq<Parts>)
    requires forall p :: p in order ==> p in snapshot && Normal(p)
    requires Distinct(order) && WriteEntries(dir, snapshot, order).Ok?
    ensures var parsed := ParseEntries(WriteEntries(dir, snapshot, order).value, dir);
            if AllRecoverable(dir, order) then parsed == Ok(Restrict(snapshot, order)) else parsed.Err?
  {
    if order == [] {
      assert Restrict(snapshot, order) == map[];
    } else {
      var n := |order| - 1;
      var last, init := order[n], order[..n];
      EntriesRoundTrip(dir, snapshot, init);
      var items := WriteEntries(dir, snapshot, init).value;
      assert WriteEntries(dir, snapshot, order).value[..|items|] == items;
      RestrictSnoc(snapshot, order);
      if ParseEntries(items, dir).Ok? {
        EntryRoundTrip(dir, last, snapshot[last], Restrict(snapshot, init));
      }
      hide ParseEntry, WriteEntry, Recoverable, Normal, Restrict, Distinct;
    }
  }

  lemma DocumentRoundTrip(items: seq<Json>, prune: bool, dir: Parts)
    ensures ParseDocument(Document(items, prune), dir) ==
            match ParseEntries(items, dir) case Err(e) => Err(e) case Ok(files) => Ok((files, prune))
  {
    assert KIND == "watchdogvpn-restore-rollback";
  }

  /**
   * Writing succeeds exactly when every path lies under the directory and none is
   * the journal. Parsing what was written yields the snapshot and the prune flag
   * exactly when no path is the directory itself or climbs with "..".
   */
  lemma JournalRoundTrip(dir: Parts, snapshot: Files, order: seq<Parts>, prune: bool)
    requires Enumerates(order, snapshot)
    ensures WriteEntries(dir, snapshot, order).Ok? <==> forall p :: p in snapshot ==> Writable(dir, p)
    ensures WriteEntries(dir, snapshot, order).Ok? ==>
              var parsed := ParseDocument(Document(WriteEntries(dir, snapshot, order).value, prune), dir);
              if forall p :: p in snapshot ==> dir <= p && Recoverable(dir, p)
              then parsed == Ok((snapshot, prune))
              else parsed.Err?
  {
    WriteSucceeds(dir, snapshot, order);
    WritableCovers(dir, order);
    RecoverableCovers(dir, order);
    if WriteEntries(dir, snapshot, order).Ok? {
      EntriesRoundTrip(dir, snapshot, order);
      DocumentRoundTrip(WriteEntries(dir, snapshot, order).value, prune, dir);
      assert Restrict(snapshot, order) == snapshot;
      hide ParseDocument, ParseEntries, WriteEntries, Recoverable, Writable, Normal, Distinct;
    }
  }

  lemma {:induction false} WritableCovers(dir: Parts, order: seq<Parts>)
    ensures AllWritable(dir, order) <==> forall p :: p in order ==> Writable(dir, p)
  {
    if order != [] {
      var n := |order| - 1;
      WritableCovers(dir, order[..n]);
      assert order == order[..n] + [order[n]];
      hide Writable;
    }
  }

  lemma {:induction false} RecoverableCovers(dir: Parts, order: seq<Parts>)
    ensures AllRecoverable(dir, order) <==> forall p :: p in order ==> dir <= p && Recoverable(dir, p)
  {
    if order != [] {
      var n := |order| - 1;
      RecoverableCovers(dir, order[..n]);
      assert order == order[..n] + [order[n]];
      forall p | p in order[..n] ensures p in order {}
      assert order[n] in order;
    }
  }

  // ---------------------------------------------------------------------
  // The loops that write and parse the document
  // ---------------------------------------------------------------------

  lemma {:induction false} WriteErrorStays(dir: Parts, snapshot: Files, order: seq<Parts>, k: nat)
    requires k <= |order| && forall p :: p in order ==> p in snapshot
    requires WriteEntries(dir, snapshot, order[..k]).Err?
    ensures WriteEntries(dir, snapshot, order) == WriteEntries(dir, snapshot, order[..k])
    decreases |order|
  {
    if k == |order| {
      assert order[..k] == order;
    } else {
      assert order[..|order| - 1][..k] == order[..k];
      WriteErrorStays(dir, snapshot, order[..|order| - 1], k);
      hide WriteEntry;
    }
  }

  /** Nothing is written while a journal is pending or when an entry is refused. */
  method WriteJournal(dir: Parts, snapshot: Files, order: seq<Parts>, prune: bool, pending: bool)
    returns (r: Result<Json, WriteError>)
    requires forall p :: p in order ==> p in snapshot
    ensures r == if pending then Err(Pending)
                 else match WriteEntries(dir, snapshot, order)
                      case Err(e) => Err(e)
                      case Ok(items) => Ok(Document(items, prune))
  {
    if pending {
      return Err(Pending);
    }
    var entries := [];
    for i := 0 to |order|
      invariant WriteEntries(dir, snapshot, order[..i]) == Ok(entries)
    {
      assert order[..i + 1][..i] == order[..i];
      var written := WriteEntry(dir, order[i], snapshot[order[i]]);
      if written.Err? {
        WriteErrorStays(dir, snapshot, order, i + 1);
        return Err(written.error);
      }
      entries := entries + [written.value];
    }
    assert order[..|order|] == order;
    r := Ok(Document(entries, prune));
  }

  lemma {:induction false} ParseErrorStays(items: seq<Json>, dir: Parts, k: nat)
    requires k <= |items| && ParseEntries(items[..k], dir).Err?
    ensures ParseEntries(items, dir) == ParseEntries(items[..k], dir)
    decreases |items|
  {
    if k == |items| {
      assert items[..k] == items;
    } else {
      assert items[..|items| - 1][..k] == items[..k];
      ParseErrorStays(items[..|items| - 1], dir, k);
      hide ParseEntry;
    }
  }

  method RestoreJournalEntries(items: seq<Json>, dir: Parts) returns (r: Result<Files, ParseError>)
    ensures r == ParseEntries(items, dir)
  {
    hide ParseEntry;
    var files: Files := map[];
    for i := 0 to |items|
      invariant ParseEntries(items[..i], dir) == Ok(files)
    {
      assert items[..i + 1][..i] == items[..i];
      var parsed := ParseEntry(items[i], dir, files);
      if parsed.Err? {
        ParseErrorStays(items, dir, i + 1);
        return parsed;
      }
      files := parsed.value;
    }
    assert items[..|items|] == items;
    r := Ok(files);
  }

  method RestoreJournalPayload(data: Json, dir: Parts) returns (r: Result<(Files, bool), ParseError>)
    ensures r == ParseDocument(data, dir)
  {
    hide ParseEntries, ParseEntry;
    if !data.Object? {
      return Err(NotAnObject);
    }
    var version := Get(data.fields, "schema_version", Null);
    if !VersionOne(version) && version != Number(2.0) {
      return Err(UnsupportedVersion);
    }
    if Get(data.fields, "kind", Null) != Text(KIND) {
      return Err(UnsupportedKind);
    }
    var flag := if VersionOne(version) then "remove_unlisted_json" else "prune_unlisted_rule_files";
    var prune := Get(data.fields, flag, Bool(false));
    var entries := Get(data.fields, "files", Null);
    if !prune.Bool? || !entries.List? {
      return Err(BadStructure);
    }
    var files := RestoreJournalEntries(entries.items, dir);
    r := if files.Err? then Err(files.error) else Ok((files.value, prune.b));
  }

  /** The closest directory at or above `dir` that holds a journal. */
  method JournalDirectory(dir: Parts, journals: set<Parts>) returns (r: Option<Parts>)
    ensures r.Some? ==> r.value <= dir && r.value in journals
    ensures r.Some? ==> forall k :: |r.value| < k <= |dir| ==> dir[..k] !in journals
    ensures r.None? ==> forall k :: 0 <= k <= |dir| ==> dir[..k] !in journals
  {
    var n: nat := |dir|;
    while true
      invariant n <= |dir|
      invariant forall k :: n < k <= |dir| ==> dir[..k] !in journals
      decreases n
    {
      if dir[..n] in journals {
        return Some(dir[..n]);
      }
      if n == 0 {
        return None;
      }
      n := n - 1;
    }
  }
}
