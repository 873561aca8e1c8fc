/** What a journal document must say to be accepted, and what is then read from it. */
module JournalMeaning {
  import opened Base64Meaning
  import opened Common
  import opened JournalCodec

  // ---------------------------------------------------------------------
  // Names
  // ---------------------------------------------------------------------

  /** The pieces with a slash between each two. */
  function Slashed(pieces: seq<string>): string
    requires pieces != []
  {
    if |pieces| == 1 then pieces[0] else Slashed(pieces[..|pieces| - 1]) + "/" + pieces[|pieces| - 1]
  }

  predicate SlashFree(pieces: seq<string>) {
    forall i :: 0 <= i < |pieces| ==> '/' !in pieces[i]
  }

  lemma {:induction false} LastSlashMeans(s: string)
    ensures LastSlash(s) >= 0 ==> s[LastSlash(s)] == '/'
    ensures forall j :: LastSlash(s) < j < |s| ==> s[j] != '/'
  {
    if s != "" && s[|s| - 1] != '/' {
      LastSlashMeans(s[..|s| - 1]);
    }
  }

  /** Splitting undoes joining by slashes. */
  lemma {:induction false} SplitMeans(s: string)
    ensures Split(s) != [] && SlashFree(Split(s)) && Slashed(Split(s)) == s
  {
    var i := LastSlash(s);
    LastSlashMeans(s);
    hide LastSlash;
    if i < 0 {
      assert s[i + 1..] == s;
    } else {
      SplitMeans(s[..i]);
      SlashedMore(Split(s[..i]), s[i + 1..]);
      assert s == s[..i] + "/" + s[i + 1..];
      hide SlashFree, Slashed;
    }
  }

  lemma SlashedMore(pieces: seq<string>, piece: string)
    requires pieces != [] && SlashFree(pieces) && '/' !in piece
    ensures SlashFree(pieces + [piece]) && Slashed(pieces + [piece]) == Slashed(pieces) + "/" + piece
  {
    assert (pieces + [piece])[..|pieces|] == pieces;
  }

  predicate Trivial(piece: string) {
    piece == "" || piece == "."
  }

  /** `kept` are the pieces at the places `at`, in order; all others are trivial. */
  ghost predicate KeptAt(pieces: seq<string>, kept: seq<string>, at: seq<nat>) {
    && |at| == |kept| && (forall i, j :: 0 <= i < j < |at| ==> at[i] < at[j])
    && (forall i :: 0 <= i < |at| ==> at[i] < |pieces| && kept[i] == pieces[at[i]])
    && (forall p :: 0 <= p < |pieces| ==> (p in at <==> !Trivial(pieces[p])))
  }

  lemma KeptMore(pieces: seq<string>, kept: seq<string>, at: seq<nat>, piece: string)
    requires KeptAt(pieces, kept, at)
    ensures if Trivial(piece) then KeptAt(pieces + [piece], kept, at)
            else KeptAt(pieces + [piece], kept + [piece], at + [|pieces|])
  {
    hide Trivial;
    assert |pieces| !in at;
  }

  lemma {:induction false} DropTrivialMeans(pieces: seq<string>) returns (at: seq<nat>)
    ensures KeptAt(pieces, DropTrivial(pieces), at)
  {
    hide KeptAt;
    at := [];
    if pieces == [] {
      KeptNone();
    } else {
      var n := |pieces| - 1;
      at := DropTrivialMeans(pieces[..n]);
      KeptMore(pieces[..n], DropTrivial(pieces[..n]), at, pieces[n]);
      assert pieces == pieces[..n] + [pieces[n]];
      if Trivial(pieces[n]) {
        assert DropTrivial(pieces) == DropTrivial(pieces[..n]);
      } else {
        at := at + [n];
      }
    }
  }

  lemma KeptNone()
    ensures KeptAt([], [], [])
  {
  }

  /** The components of any name are its pieces between slashes, without empty ones and dots. */
  lemma ParsePathMeans(name: string) returns (pieces: seq<string>, at: seq<nat>)
    ensures pieces != [] && SlashFree(pieces) && Slashed(pieces) == name && KeptAt(pieces, ParsePath(name), at)
  {
    hide KeptAt, SlashFree, Slashed;
    SplitMeans(name);
    pieces := Split(name);
    at := DropTrivialMeans(pieces);
  }

  // ---------------------------------------------------------------------
  // Entries
  // ---------------------------------------------------------------------

  /** A relative name that stays inside the directory. */
  predicate GoodName(name: string) {
    ParsePath(name) != [] && ".." !in ParsePath(name) && !(name != "" && name[0] == '/')
  }

  /** An object with such a name and, if there are contents, base64 text. */
  ghost predicate GoodEntry(item: Json) {
    && item.Object? && "name" in item.fields && item.fields["name"].Text? && GoodName(item.fields["name"].s)
    && ("content_b64" in item.fields ==>
          item.fields["content_b64"].Null? || (item.fields["content_b64"].Text? && Base64Text(item.fields["content_b64"].s)))
  }

  function PathOf(item: Json, dir: Parts): Parts
    requires item.Object? && "name" in item.fields && item.fields["name"].Text?
  {
    dir + ParsePath(item.fields["name"].s)
  }

  /** What the entry says of the file's contents: that there was none, or the bytes it spells. */
  ghost predicate SaysContent(item: Json, content: Option<Bytes>)
    requires item.Object?
  {
    if "content_b64" in item.fields && item.fields["content_b64"].Text?
    then exists k: nat :: content.Some? && Padded(item.fields["content_b64"].s, k) && Says(item.fields["content_b64"].s, k, content.value)
    else content.None?
  }

  lemma EntryMeans(item: Json, dir: Parts, files: Files)
    ensures ParseEntry(item, dir, files).Ok? <==> GoodEntry(item) && PathOf(item, dir) !in files
    ensures ParseEntry(item, dir, files).Ok? ==>
              exists content :: SaysContent(item, content) && ParseEntry(item, dir, files).value == files[PathOf(item, dir) := content]
  {
    hide ParsePath, Decode, Padded, Says;
    if item.Object? && "content_b64" in item.fields && item.fields["content_b64"].Text? {
      var text := item.fields["content_b64"].s;
      DecodeMeans(text);
      if Decode(text).Some? {
        var k: nat :| Padded(text, k);
        assert SaysContent(item, Some(Decode(text).value));
      }
    } else if item.Object? {
      assert SaysContent(item, None);
    }
  }

  /** Good entries, no two of them for one path. */
  ghost predicate GoodEntries(items: seq<Json>) {
    && (forall i :: 0 <= i < |items| ==> GoodEntry(items[i]))
    && (forall i, j :: 0 <= i < j < |items| ==> ParsePath(items[i].fields["name"].s) != ParsePath(items[j].fields["name"].s))
  }

  /** Exactly the files the entries name, with the contents they spell. */
  ghost predicate ReadFrom(items: seq<Json>, dir: Parts, files: Files)
    requires GoodEntries(items)
  {
    && (forall i :: 0 <= i < |items| ==> PathOf(items[i], dir) in files && SaysContent(items[i], files[PathOf(items[i], dir)]))
    && (forall p :: p in files ==> exists i :: 0 <= i < |items| && PathOf(items[i], dir) == p)
  }

  lemma NamedOnce(items: seq<Json>, dir: Parts, item: Json, files: Files)
    requires GoodEntries(items) && ReadFrom(items, dir, files) && GoodEntry(item)
    ensures PathOf(item, dir) in files <==> exists i :: 0 <= i < |items| && ParsePath(items[i].fields["name"].s) == ParsePath(item.fields["name"].s)
  {
    hide ParsePath, GoodName, SaysContent;
    var path := ParsePath(item.fields["name"].s);
    assert PathOf(item, dir)[|dir|..] == path;
    forall i | 0 <= i < |items| && PathOf(items[i], dir) == PathOf(item, dir)
      ensures ParsePath(items[i].fields["name"].s) == path
    {
      assert PathOf(items[i], dir)[|dir|..] == ParsePath(items[i].fields["name"].s);
    }
  }

  /** The entries are accepted exactly when they are good and name each file once; what is read is what they say. */
  lemma {:induction false} EntriesMean(items: seq<Json>, dir: Parts)
    ensures ParseEntries(items, dir).Ok? <==> GoodEntries(items)
    ensures ParseEntries(items, dir).Ok? ==> ReadFrom(items, dir, ParseEntries(items, dir).value)
  {
    hide GoodEntry, ParseEntry, ParsePath, SaysContent;
    if items != [] {
      var n := |items| - 1;
      var init, last := items[..n], items[n];
      EntriesMean(init, dir);
      if GoodEntries(init) {
        var files := ParseEntries(init, dir).value;
        EntryMeans(last, dir, files);
        MoreEntries(init, last, dir, files);
        assert items == init + [last];
      }
    }
  }

  lemma MoreEntries(init: seq<Json>, last: Json, dir: Parts, files: Files)
    requires GoodEntries(init) && ReadFrom(init, dir, files)
    ensures GoodEntries(init + [last]) <==> GoodEntry(last) && PathOf(last, dir) !in files
    ensures GoodEntries(init + [last]) ==>
              forall content :: SaysContent(last, content) ==> ReadFrom(init + [last], dir, files[PathOf(last, dir) := content])
  {
    hide ParsePath, SaysContent, GoodName;
    var all := init + [last];
    assert all[|init|] == last && forall i :: 0 <= i < |init| ==> all[i] == init[i];
    if GoodEntry(last) {
      NamedOnce(init, dir, last, files);
    }
  }

  // ---------------------------------------------------------------------
  // The document
  // ---------------------------------------------------------------------

  /** Version 2, or version 1 (for which `true` also passes), which has another name for the flag. */
  predicate Flagged(version: Json, flag: string) {
    || (version == Number(2.0) && flag == "prune_unlisted_rule_files")
    || ((version == Number(1.0) || version == Bool(true)) && flag == "remove_unlisted_json")
  }

  ghost predicate GoodDocument(data: Json, flag: string) {
    && data.Object?
    && "schema_version" in data.fields && Flagged(data.fields["schema_version"], flag)
    && "kind" in data.fields && data.fields["kind"] == Text("watchdogvpn-restore-rollback")
    && (flag in data.fields ==> data.fields[flag].Bool?)
    && "files" in data.fields && data.fields["files"].List? && GoodEntries(data.fields["files"].items)
  }

  /**
   * A journal is accepted exactly when version, kind, flag and every entry are as they must
   * be and no file is named twice. Then exactly the named files are read, with the contents
   * spelled out, and rule files are pruned exactly if the flag says so.
   */
  lemma DocumentMeans(data: Json, dir: Parts)
    ensures ParseDocument(data, dir).Ok? <==> exists flag :: GoodDocument(data, flag)
    ensures forall flag :: GoodDocument(data, flag) && ParseDocument(data, dir).Ok? ==>
              && ReadFrom(data.fields["files"].items, dir, ParseDocument(data, dir).value.0)
              && (ParseDocument(data, dir).value.1 <==> flag in data.fields && data.fields[flag] == Bool(true))
  {
    hide GoodEntries, ParseEntries, ReadFrom;
    assert KIND == "watchdogvpn-restore-rollback";
    if data.Object? && "files" in data.fields && data.fields["files"].List? {
      EntriesMean(data.fields["files"].items, dir);
    }
    if ParseDocument(data, dir).Ok? {
      var flag := if VersionOne(data.fields["schema_version"]) then "remove_unlisted_json" else "prune_unlisted_rule_files";
      assert GoodDocument(data, flag);
    }
  }

  // ---------------------------------------------------------------------
  // What is written
  // ---------------------------------------------------------------------

  /** The entry names the path from the directory on and spells the contents, or says that there were none. */
  ghost predicate EntryFor(item: Json, dir: Parts, path: Parts, content: Option<Bytes>) {
    && dir <= path && item.Object? && item.fields.Keys == {"name", "content_b64"}
    && item.fields["name"] == Text(if path == dir then "." else Slashed(path[|dir|..]))
    && (content.None? ==> item.fields["content_b64"].Null?)
    && (content.Some? ==> item.fields["content_b64"].Text? && Spells(item.fields["content_b64"].s, content.value))
  }

  /** Padded as the length asks, with the bits of the bytes and then zeros. */
  ghost predicate Spells(text: string, data: Bytes) {
    Padded(text, Fill(|data|)) && TextBits(text) == DataBits(data) + Bits(0, 2 * Fill(|data|))
  }

  lemma {:induction false} JoinSlashes(parts: Parts)
    requires parts != []
    ensures Join(parts) == Slashed(parts)
  {
    if |parts| > 1 {
      JoinSlashes(parts[..|parts| - 1]);
    }
  }

  lemma EntryWritten(dir: Parts, path: Parts, content: Option<Bytes>)
    requires WriteEntry(dir, path, content).Ok?
    ensures EntryFor(WriteEntry(dir, path, content).value, dir, path, content)
  {
    if path != dir {
      JoinSlashes(path[|dir|..]);
    }
    if content.Some? {
      EncodeMeans(content.value);
    }
    hide Encode, TextBits, DataBits, Padded, Slashed, Bits, Fill;
    assert path == dir ==> path[|dir|..] == [];
  }

  ghost predicate EntriesFor(items: seq<Json>, dir: Parts, snapshot: Files, order: seq<Parts>)
    requires forall p :: p in order ==> p in snapshot
  {
    |items| == |order| && forall i :: 0 <= i < |items| ==> EntryFor(items[i], dir, order[i], snapshot[order[i]])
  }

  lemma {:induction false} EntriesWritten(dir: Parts, snapshot: Files, order: seq<Parts>)
    requires (forall p :: p in order ==> p in snapshot) && WriteEntries(dir, snapshot, order).Ok?
    ensures EntriesFor(WriteEntries(dir, snapshot, order).value, dir, snapshot, order)
  {
    hide EntryFor, WriteEntry;
    if order != [] {
      var n := |order| - 1;
      EntriesWritten(dir, snapshot, order[..n]);
      EntryWritten(dir, order[n], snapshot[order[n]]);
    }
  }

  /** The written document has version 2, the flag, and one entry for each path in order. */
  lemma WrittenMeans(dir: Parts, snapshot: Files, order: seq<Parts>, prune: bool)
    requires (forall p :: p in order ==> p in snapshot) && WriteEntries(dir, snapshot, order).Ok?
    ensures var doc := Document(WriteEntries(dir, snapshot, order).value, prune);
            && doc.Object? && doc.fields.Keys == {"schema_version", "kind", "prune_unlisted_rule_files", "files"}
            && doc.fields["schema_version"] == Number(2.0) && doc.fields["kind"] == Text("watchdogvpn-restore-rollback")
            && doc.fields["prune_unlisted_rule_files"] == Bool(prune) && doc.fields["files"].List?
            && EntriesFor(doc.fields["files"].items, dir, snapshot, order)
  {
    hide EntriesFor, WriteEntries;
    EntriesWritten(dir, snapshot, order);
    assert KIND == "watchdogvpn-restore-rollback";
  }
}
