/** Fresh names for imported objects: a shortened prefix, a timestamp, and a number if needed. */
module ImportedNames {
  import opened Common

  predicate IsSeparator(c: char) {
    c == '-' || c == '_'
  }

  predicate IsSlugChar(c: char) {
    'a' <= c <= 'z' || IsDigit(c) || IsSeparator(c)
  }

  predicate AllSlug(s: string) {
    forall i :: 0 <= i < |s| ==> IsSlugChar(s[i])
  }

  const MAX_NAME := 64

  predicate ValidName(s: string) {
    0 < |s| <= MAX_NAME && AllSlug(s) && !IsSeparator(s[0])
  }

  /** Fourteen digits: year, month, day, hour, minute, second. */
  predicate IsTimestamp(s: string) {
    |s| == 14 && forall i :: 0 <= i < |s| ==> IsDigit(s[i])
  }

  function StripRight(s: string): string {
    if s != "" && IsSeparator(s[|s| - 1]) then StripRight(s[..|s| - 1]) else s
  }

  function StripLeft(s: string): string {
    if s != "" && IsSeparator(s[0]) then StripLeft(s[1..]) else s
  }

  /** `s[:n]`: a negative bound counts from the end. */
  function Upto(s: string, n: int): string {
    if n >= 0 then s[..Min(n, |s|)]
    else if |s| + n >= 0 then s[..|s| + n] else ""
  }

  /** The value is already a slug, so only its ends and its length change. */
  function SlugPrefix(value: string, limit: int): string {
    var trimmed := StripRight(StripLeft(value));
    var whole := if trimmed == "" then "imported" else trimmed;
    var cut := StripRight(Upto(whole, limit));
    if cut == "" then "imported" else cut
  }

  function Suffix(k: nat): string {
    if k < 2 then "" else "-" + Decimal(k)
  }

  function PrefixLimit(k: nat): int {
    if k < 2 then 48 else MAX_NAME - 14 - |Suffix(k)| - 1
  }

  /** The first candidate (k is 1), and the ones numbered from 2. */
  function Candidate(source: string, ts: string, k: nat): string {
    SlugPrefix("imported-" + source, PrefixLimit(k)) + "-" + ts + Suffix(k)
  }

  // ---------------------------------------------------------------------
  // Which candidates are valid names
  // ---------------------------------------------------------------------

  lemma {:induction false} StripRightKeepsHead(s: string)
    requires s != "" && !IsSeparator(s[0])
    ensures StripRight(s) != "" && StripRight(s) <= s
  {
    if IsSeparator(s[|s| - 1]) {
      StripRightKeepsHead(s[..|s| - 1]);
    }
  }

  lemma PrefixShape(source: string, limit: int)
    requires AllSlug(source) && limit >= 1
    ensures var p := SlugPrefix("imported-" + source, limit);
            0 < |p| <= limit && AllSlug(p) && p[0] == 'i'
  {
    var value := "imported-" + source;
    assert value[0] == 'i';
    assert AllSlug(value);
    StripRightKeepsHead(value);
    var trimmed := StripRight(value);
    var cut := Upto(trimmed, limit);
    assert cut[0] == 'i' && cut <= value;
    StripRightKeepsHead(cut);
  }

  predicate EndsOpen(s: string) {
    s != "" && IsSeparator(s[|s| - 1])
  }

  /** `p` is the longest beginning of `whole` with at most `room` characters that ends in no separator. */
  ghost predicate LongestFit(p: string, whole: string, room: nat) {
    && p <= whole && |p| <= room && !EndsOpen(p)
    && forall q :: q <= whole && |q| <= room && !EndsOpen(q) ==> |q| <= |p|
  }

  lemma {:induction false} StripRightFits(s: string)
    ensures LongestFit(StripRight(s), s, |s|)
  {
    if EndsOpen(s) {
      var init := s[..|s| - 1];
      StripRightFits(init);
      forall q | q <= s && !EndsOpen(q) ensures q <= init {
        assert q != s;
      }
    }
  }

  lemma UptoFits(s: string, limit: nat)
    ensures LongestFit(StripRight(Upto(StripRight(s), limit)), s, limit)
  {
    var trimmed := StripRight(s);
    StripRightFits(s);
    StripRightFits(Upto(trimmed, limit));
    hide StripRight;
    forall q | q <= s && |q| <= limit && !EndsOpen(q) ensures q <= Upto(trimmed, limit) {
      assert |q| <= |trimmed|;
      assert q == s[..|q|] && trimmed == s[..|trimmed|];
    }
  }

  /** The room for the beginning of a name, beside the timestamp and the number. */
  function Room(k: nat): int {
    if k < 2 then 48 else 64 - 14 - (1 + |Decimal(k)|) - 1
  }

  /** A candidate: as much of "imported-" and the old name as fits, the timestamp, and its number from 2 on. */
  lemma CandidateMeans(source: string, ts: string, k: nat) returns (p: string)
    requires AllSlug(source) && Room(k) >= 1
    ensures p != "" && LongestFit(p, "imported-" + source, Room(k))
    ensures Candidate(source, ts, k) == p + "-" + ts + if k < 2 then "" else "-" + Decimal(k)
  {
    hide SlugPrefix, StripRight, Decimal, LongestFit, AllSlug;
    var value := "imported-" + source;
    assert value[0] == 'i';
    p := SlugPrefix(value, Room(k));
    UptoFits(value, Room(k));
    OnlyCut(value, Room(k));
  }

  lemma OnlyCut(value: string, limit: int)
    requires value != "" && !IsSeparator(value[0]) && limit >= 1
    ensures SlugPrefix(value, limit) == StripRight(Upto(StripRight(value), limit)) && SlugPrefix(value, limit) != ""
  {
    StripRightKeepsHead(value);
    assert StripLeft(value) == value;
    hide StripRight, StripLeft;
    var cut := Upto(StripRight(value), limit);
    assert cut != "" && cut[0] == value[0];
    StripRightKeepsHead(cut);
  }

  lemma PrefixNonEmpty(value: string, limit: int)
    ensures |SlugPrefix(value, limit)| >= 1
  {
  }

  lemma SuffixShape(k: nat)
    ensures AllSlug(Suffix(k)) && (k >= 2 ==> |Suffix(k)| >= 2)
  {
    DecimalDigits(k);
    if k >= 2 {
      var s := Suffix(k);
      forall i | 0 <= i < |s| ensures IsSlugChar(s[i]) {
        assert i == 0 || s[i] == Decimal(k)[i - 1];
      }
    }
  }

  /** A candidate is a valid name exactly while its number has at most 47 digits. */
  lemma CandidateValid(source: string, ts: string, k: nat)
    requires AllSlug(source) && IsTimestamp(ts)
    ensures ValidName(Candidate(source, ts, k)) <==> k < PowerOfTen(47)
  {
    SuffixShape(k);
    var limit := PrefixLimit(k);
    var prefix, suffix := SlugPrefix("imported-" + source, limit), Suffix(k);
    hide SlugPrefix, Decimal, PowerOfTen;
    DecimalLength(k, 47);
    if limit >= 1 {
      PrefixShape(source, limit);
      Assemble(prefix, ts, suffix);
    } else {
      PrefixNonEmpty("imported-" + source, limit);
    }
    SmallNumber(k);
  }

  lemma SmallNumber(k: nat)
    ensures k < 2 ==> k < PowerOfTen(47)
  {
    assert PowerOfTen(47) == 10 * PowerOfTen(46);
    PowerPositive(46);
  }

  lemma Assemble(prefix: string, ts: string, suffix: string)
    requires prefix != "" && AllSlug(prefix) && !IsSeparator(prefix[0]) && IsTimestamp(ts) && AllSlug(suffix)
    requires |prefix| + 15 + |suffix| <= MAX_NAME
    ensures ValidName(prefix + "-" + ts + suffix)
  {
    var s := prefix + "-" + ts + suffix;
    forall i | 0 <= i < |s| ensures IsSlugChar(s[i]) {
      if |prefix| < i < |prefix| + 15 {
        assert s[i] == ts[i - |prefix| - 1];
      }
    }
  }

  // ---------------------------------------------------------------------
  // Numbered candidates differ
  // ---------------------------------------------------------------------

  /** Text after the last dash. */
  function Ending(s: string): string {
    if s == "" || s[|s| - 1] == '-' then "" else Ending(s[..|s| - 1]) + [s[|s| - 1]]
  }

  lemma {:induction false} EndingOf(front: string, digits: string)
    requires forall i :: 0 <= i < |digits| ==> IsDigit(digits[i])
    ensures Ending(front + "-" + digits) == digits
  {
    var s := front + "-" + digits;
    if digits == "" {
      assert s[|s| - 1] == '-';
    } else {
      var n := |digits| - 1;
      assert s[..|s| - 1] == front + "-" + digits[..n] && s[|s| - 1] == digits[n];
      EndingOf(front, digits[..n]);
    }
  }

  lemma NumberedDiffer(source: string, ts: string, j: nat, k: nat)
    requires 2 <= j && 2 <= k && Candidate(source, ts, j) == Candidate(source, ts, k)
    ensures j == k
  {
    DecimalDigits(j);
    DecimalDigits(k);
    var x, y := SlugPrefix("imported-" + source, PrefixLimit(j)) + "-" + ts, SlugPrefix("imported-" + source, PrefixLimit(k)) + "-" + ts;
    assert Candidate(source, ts, j) == x + "-" + Decimal(j);
    assert Candidate(source, ts, k) == y + "-" + Decimal(k);
    hide SlugPrefix, Decimal;
    EndingOf(x, Decimal(j));
    EndingOf(y, Decimal(k));
    DecimalInjective(j, k);
  }

  // ---------------------------------------------------------------------
  // The search
  // ---------------------------------------------------------------------

  /** Names numbered from 2 are all different. */
  ghost predicate Numbered(names: nat -> string) {
    forall j, k :: 2 <= j && 2 <= k && names(j) == names(k) ==> j == k
  }

  function Range(names: nat -> string, n: nat): set<string> {
    if n <= 2 then {} else Range(names, n - 1) + {names(n - 1)}
  }

  lemma {:induction false} RangeSize(names: nat -> string, n: nat)
    requires Numbered(names) && n >= 2
    ensures |Range(names, n)| == n - 2
    ensures forall s :: s in Range(names, n) ==> exists k :: 2 <= k < n && names(k) == s
  {
    if n > 2 {
      RangeSize(names, n - 1);
      assert names(n - 1) !in Range(names, n - 1);
    }
  }

  /** If all numbers below `n` are taken, there are at least that many names. */
  lemma Pigeonhole(names: nat -> string, existing: set<string>, n: nat)
    requires Numbered(names) && n >= 2 && forall k :: 2 <= k < n ==> names(k) in existing
    ensures n <= |existing| + 2
  {
    RangeSize(names, n);
    assert Range(names, n) <= existing;
    SubsetCardinality(Range(names, n), existing);
  }

  /** `k` is the first candidate that is not taken. */
  ghost predicate FirstFree(names: nat -> string, existing: set<string>, k: nat) {
    k >= 1 && names(k) !in existing && forall j :: 1 <= j < k ==> names(j) in existing
  }

  /** `name` is the first candidate not in use, found after at most two more rounds than there are names. */
  ghost predicate Picks(names: nat -> string, existing: set<string>, name: string) {
    exists k: nat :: k <= |existing| + 2 && FirstFree(names, existing, k) && name == names(k)
  }

  function Candidates(source: string, ts: string): nat -> string {
    (k: nat) => Candidate(source, ts, k)
  }

  lemma CandidatesNumbered(source: string, ts: string)
    ensures Numbered(Candidates(source, ts))
  {
    forall j, k | 2 <= j && 2 <= k && Candidate(source, ts, j) == Candidate(source, ts, k) ensures j == k {
      NumberedDiffer(source, ts, j, k);
    }
  }

  /**
   * The suffix search. It stops because the numbered candidates differ; it fails
   * only if every candidate short enough to be a valid name is taken.
   */
  method UniqueTimestampedName(source: string, existing: set<string>, ts: string) returns (r: Result<string, ()>)
    requires AllSlug(source) && IsTimestamp(ts)
    ensures r.Ok? ==> Picks(Candidates(source, ts), existing, r.value) && ValidName(r.value) && r.value !in existing
    ensures r.Err? <==> forall i :: 1 <= i < PowerOfTen(47) ==> Candidate(source, ts, i) in existing
    ensures |existing| + 2 < PowerOfTen(47) ==> r.Ok?
  {
    hide Candidate, PowerOfTen, ValidName;
    CandidatesNumbered(source, ts);
    ghost var names := Candidates(source, ts);
    ghost var k := 1;
    SmallNumber(1);
    CandidateValid(source, ts, 1);
    var candidate := Candidate(source, ts, 1);
    var suffix := 2;
    while candidate in existing
      invariant suffix == k + 1 && k >= 1 && k <= |existing| + 2
      invariant candidate == Candidate(source, ts, k) && ValidName(candidate) && k < PowerOfTen(47)
      invariant forall i :: 1 <= i < k ==> names(i) in existing
      decreases |existing| + 2 - k
    {
      assert names(k) in existing;
      Pigeonhole(names, existing, suffix);
      candidate := Candidate(source, ts, suffix);
      k := suffix;
      CandidateValid(source, ts, suffix);
      if !ValidName(candidate) {
        forall i | 1 <= i < PowerOfTen(47) ensures Candidate(source, ts, i) in existing {
          assert names(i) in existing;
        }
        return Err(());
      }
      suffix := suffix + 1;
    }
    assert FirstFree(names, existing, k) && candidate == names(k);
    r := Ok(candidate);
  }

  /** `base` is the rule's id without surrounding blanks, or "rule". */
  function ImportedId(base: string, ts: string, k: nat): string {
    "imported-" + base + "-" + ts + Suffix(k)
  }

  function ImportedIds(base: string, ts: string): nat -> string {
    (k: nat) => ImportedId(base, ts, k)
  }

  lemma IdsNumbered(base: string, ts: string)
    ensures Numbered(ImportedIds(base, ts))
  {
    forall j, k | 2 <= j && 2 <= k && ImportedId(base, ts, j) == ImportedId(base, ts, k) ensures j == k {
      var front := "imported-" + base + "-" + ts;
      assert ImportedId(base, ts, j) == front + ("-" + Decimal(j)) && ImportedId(base, ts, k) == front + ("-" + Decimal(k));
      assert ("-" + Decimal(j)) == ImportedId(base, ts, j)[|front|..];
      assert ("-" + Decimal(k)) == ImportedId(base, ts, k)[|front|..];
      assert Decimal(j) == ("-" + Decimal(j))[1..] && Decimal(k) == ("-" + Decimal(k))[1..];
      DecimalInjective(j, k);
    }
  }

  /** Application-rule ids have no length limit, so this search always succeeds. */
  method UniqueImportedId(base: string, existing: set<string>, ts: string) returns (id: string)
    ensures Picks(ImportedIds(base, ts), existing, id) && id !in existing
    ensures var first := "imported-" + base + "-" + ts; if first in existing then first + "-" <= id else id == first
  {
    hide ImportedId;
    IdsNumbered(base, ts);
    ghost var names := ImportedIds(base, ts);
    ghost var k := 1;
    id := ImportedId(base, ts, 1);
    var suffix := 2;
    while id in existing
      invariant suffix == k + 1 && k >= 1 && k <= |existing| + 2 && id == ImportedId(base, ts, k)
      invariant forall i :: 1 <= i < k ==> names(i) in existing
      decreases |existing| + 2 - k
    {
      assert names(k) in existing;
      Pigeonhole(names, existing, suffix);
      id := ImportedId(base, ts, suffix);
      k := suffix;
      suffix := suffix + 1;
    }
    assert FirstFree(names, existing, k) && id == names(k);
    IdBegins(base, ts, k);
    IdBegins(base, ts, 1);
    assert k > 1 ==> names(1) in existing;
  }

  lemma IdBegins(base: string, ts: string, k: nat)
    ensures var first := "imported-" + base + "-" + ts; if k < 2 then ImportedId(base, ts, k) == first else first + "-" <= ImportedId(base, ts, k)
  {
    hide Decimal;
    var first := "imported-" + base + "-" + ts;
    if k < 2 {
      assert ImportedId(base, ts, k) == first;
    } else {
      assert ImportedId(base, ts, k) == (first + "-") + Decimal(k);
    }
  }
}
