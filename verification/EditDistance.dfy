/**
 * The command suggester: the restricted Damerau-Levenshtein table and the
 * selection of a unique best-ranked command.
 */
module EditDistance {
  import opened Common

  // ---------------------------------------------------------------------
  // The recursive distance
  // ---------------------------------------------------------------------

  predicate Transposed(left: string, right: string, i: nat, j: nat)
    requires i <= |left| && j <= |right|
  {
    i > 1 && j > 1 && left[i - 1] == right[j - 2] && left[i - 2] == right[j - 1]
  }

  /** The recurrence: from the distances of the shorter prefixes to that of (i, j). */
  function Best(left: string, right: string, i: nat, j: nat, up: nat, back: nat, diagonal: nat, swap: nat): nat
    requires 0 < i <= |left| && 0 < j <= |right|
  {
    var cost := if left[i - 1] == right[j - 1] then 0 else 1;
    var plain := Min(Min(up + 1, back + 1), diagonal + cost);
    if Transposed(left, right, i, j) then Min(plain, swap + 1) else plain
  }

  /** Distance between the prefixes of length i and j. */
  function Distance(left: string, right: string, i: nat, j: nat): nat
    requires i <= |left| && j <= |right|
    decreases i + j
  {
    if i == 0 || j == 0 then i + j
    else
      Best(left, right, i, j,
           Distance(left, right, i - 1, j),
           Distance(left, right, i, j - 1),
           Distance(left, right, i - 1, j - 1),
           if i > 1 && j > 1 then Distance(left, right, i - 2, j - 2) else 0)
  }

  // ---------------------------------------------------------------------
  // Edit scripts: the independent meaning of the distance
  // ---------------------------------------------------------------------

  /** One step of a script. Every character is touched by exactly one step. */
  datatype Edit = Keep | Substitute(c: char) | Insert(c: char) | Delete | Swap

  /** What a script makes of a string; None when it does not fit the string. */
  function Apply(script: seq<Edit>, s: string): Option<string>
    decreases |script|
  {
    if script == [] then (if s == [] then Some([]) else None)
    else
      var n := |script| - 1;
      var k := |s|;
      match script[n]
      case Insert(c) => Append(Apply(script[..n], s), [c])
      case Keep => if k < 1 then None else Append(Apply(script[..n], s[..k - 1]), [s[k - 1]])
      case Substitute(c) => if k < 1 then None else Append(Apply(script[..n], s[..k - 1]), [c])
      case Delete => if k < 1 then None else Apply(script[..n], s[..k - 1])
      case Swap => if k < 2 then None else Append(Apply(script[..n], s[..k - 2]), [s[k - 1], s[k - 2]])
  }

  function Append(head: Option<string>, tail: string): Option<string> {
    match head
    case None => None
    case Some(h) => Some(h + tail)
  }

  /** Number of steps that change something. */
  function Cost(script: seq<Edit>): nat {
    if script == [] then 0
    else Cost(script[..|script| - 1]) + (if script[|script| - 1].Keep? then 0 else 1)
  }

  lemma AppendInverse(head: Option<string>, tail: string, whole: string)
    requires Append(head, tail) == Some(whole)
    ensures |whole| >= |tail|
    ensures head == Some(whole[..|whole| - |tail|])
    ensures whole[|whole| - |tail|..] == tail
  {
    assert whole == head.value + tail;
  }

  /** What a script without its last step makes of the rest. */
  lemma Undone(script: seq<Edit>, s: string, t: string)
    requires script != [] && Apply(script, s) == Some(t)
    ensures var rest, last := script[..|script| - 1], script[|script| - 1];
            match last
            case Insert(c) => |t| > 0 && Apply(rest, s) == Some(t[..|t| - 1])
            case Keep => |s| > 0 && |t| > 0 && Apply(rest, s[..|s| - 1]) == Some(t[..|t| - 1]) && t[|t| - 1] == s[|s| - 1]
            case Substitute(c) => |s| > 0 && |t| > 0 && Apply(rest, s[..|s| - 1]) == Some(t[..|t| - 1])
            case Delete => |s| > 0 && Apply(rest, s[..|s| - 1]) == Some(t)
            case Swap =>
              && |s| > 1 && |t| > 1 && Apply(rest, s[..|s| - 2]) == Some(t[..|t| - 2])
              && t[|t| - 2] == s[|s| - 1] && t[|t| - 1] == s[|s| - 2]
  {
    var rest, k := script[..|script| - 1], |s|;
    match script[|script| - 1]
    case Insert(c) => AppendInverse(Apply(rest, s), [c], t);
    case Keep =>
      AppendInverse(Apply(rest, s[..k - 1]), [s[k - 1]], t);
      assert t[|t| - 1] == t[|t| - 1..][0];
    case Substitute(c) => AppendInverse(Apply(rest, s[..k - 1]), [c], t);
    case Delete =>
    case Swap =>
      AppendInverse(Apply(rest, s[..k - 2]), [s[k - 1], s[k - 2]], t);
      assert t[|t| - 2] == t[|t| - 2..][0] && t[|t| - 1] == t[|t| - 2..][1];
  }

  lemma CostLast(script: seq<Edit>)
    requires script != []
    ensures Cost(script) == Cost(script[..|script| - 1]) + if script[|script| - 1].Keep? then 0 else 1
  {
  }

  /** No script between two prefixes is cheaper than their distance. */
  lemma {:induction false} DistanceIsLowerBound(left: string, right: string, i: nat, j: nat, script: seq<Edit>)
    requires i <= |left| && j <= |right|
    requires Apply(script, left[..i]) == Some(right[..j])
    ensures Distance(left, right, i, j) <= Cost(script)
    decreases |script|
  {
    if script != [] {
      hide Apply, Cost, Distance, Transposed;
      var rest := script[..|script| - 1];
      Undone(script, left[..i], right[..j]);
      CostLast(script);
      assert i > 0 ==> left[..i][..i - 1] == left[..i - 1] && left[..i][i - 1] == left[i - 1];
      assert j > 0 ==> right[..j][..j - 1] == right[..j - 1] && right[..j][j - 1] == right[j - 1];
      match script[|script| - 1] {
        case Insert(c) =>
          DistanceIsLowerBound(left, right, i, j - 1, rest);
          GrowRight(left, right, i, j - 1);
        case Keep =>
          DistanceIsLowerBound(left, right, i - 1, j - 1, rest);
          GrowBoth(left, right, i - 1, j - 1);
        case Substitute(c) =>
          DistanceIsLowerBound(left, right, i - 1, j - 1, rest);
          GrowBoth(left, right, i - 1, j - 1);
        case Delete =>
          DistanceIsLowerBound(left, right, i - 1, j, rest);
          GrowLeft(left, right, i - 1, j);
        case Swap =>
          assert left[..i][..i - 2] == left[..i - 2] && right[..j][..j - 2] == right[..j - 2];
          assert left[..i][i - 2] == left[i - 2] && right[..j][j - 2] == right[j - 2];
          DistanceIsLowerBound(left, right, i - 2, j - 2, rest);
          GrowSwapped(left, right, i - 2, j - 2);
      }
    } else {
      EmptyScript(left, right, i, j);
    }
  }

  lemma EmptyScript(left: string, right: string, i: nat, j: nat)
    requires i <= |left| && j <= |right| && Apply([], left[..i]) == Some(right[..j])
    ensures Distance(left, right, i, j) == 0
  {
    assert |left[..i]| == i && |right[..j]| == j;
  }

  lemma GrowBoth(left: string, right: string, i: nat, j: nat)
    requires i < |left| && j < |right|
    ensures Distance(left, right, i + 1, j + 1) <= Distance(left, right, i, j) + if left[i] == right[j] then 0 else 1
  {
  }

  lemma GrowSwapped(left: string, right: string, i: nat, j: nat)
    requires i + 2 <= |left| && j + 2 <= |right| && left[i + 1] == right[j] && left[i] == right[j + 1]
    ensures Distance(left, right, i + 2, j + 2) <= Distance(left, right, i, j) + 1
  {
    Recurrence(left, right, i + 2, j + 2);
    hide Distance;
  }

  lemma GrowRight(left: string, right: string, i: nat, j: nat)
    requires i <= |left| && j < |right|
    ensures Distance(left, right, i, j + 1) <= Distance(left, right, i, j) + 1
  {
  }

  lemma GrowLeft(left: string, right: string, i: nat, j: nat)
    requires i < |left| && j <= |right|
    ensures Distance(left, right, i + 1, j) <= Distance(left, right, i, j) + 1
  {
  }

  /** A cheapest script, read off the recursion. */
  function Cheapest(left: string, right: string, i: nat, j: nat): seq<Edit>
    requires i <= |left| && j <= |right|
    decreases i + j
  {
    if i == 0 && j == 0 then []
    else if i == 0 then Cheapest(left, right, i, j - 1) + [Insert(right[j - 1])]
    else if j == 0 then Cheapest(left, right, i - 1, j) + [Delete]
    else
      var d := Distance(left, right, i, j);
      if Transposed(left, right, i, j) && d == Distance(left, right, i - 2, j - 2) + 1 then
        Cheapest(left, right, i - 2, j - 2) + [Swap]
      else if d == Distance(left, right, i - 1, j) + 1 then
        Cheapest(left, right, i - 1, j) + [Delete]
      else if d == Distance(left, right, i, j - 1) + 1 then
        Cheapest(left, right, i, j - 1) + [Insert(right[j - 1])]
      else if left[i - 1] == right[j - 1] then
        Cheapest(left, right, i - 1, j - 1) + [Keep]
      else
        Cheapest(left, right, i - 1, j - 1) + [Substitute(right[j - 1])]
  }

  lemma Extended(script: seq<Edit>, last: Edit, s: string, t: string, i: nat, j: nat)
    requires i <= |s| && j <= |t|
    requires Apply(script, s[..i]) == Some(t[..j])
    ensures Cost(script + [last]) == Cost(script) + (if last.Keep? then 0 else 1)
    ensures j < |t| && last == Insert(t[j]) ==> Apply(script + [last], s[..i]) == Some(t[..j + 1])
    ensures i < |s| && last == Delete ==> Apply(script + [last], s[..i + 1]) == Some(t[..j])
    ensures i < |s| && j < |t| && (last == Substitute(t[j]) || (last == Keep && s[i] == t[j])) ==>
              Apply(script + [last], s[..i + 1]) == Some(t[..j + 1])
    ensures i + 2 <= |s| && j + 2 <= |t| && Transposed(s, t, i + 2, j + 2) && last == Swap ==>
              Apply(script + [last], s[..i + 2]) == Some(t[..j + 2])
  {
    assert (script + [last])[..|script|] == script;
    if i < |s| {
      assert s[..i + 1][..i] == s[..i];
    }
    if j < |t| {
      assert t[..j + 1] == t[..j] + [t[j]];
    }
    if i + 2 <= |s| && j + 2 <= |t| {
      assert s[..i + 2][..i] == s[..i];
      assert t[..j + 2] == t[..j] + [t[j], t[j + 1]];
    }
  }

  lemma CheapestEdge(left: string, right: string, i: nat, j: nat)
    requires i <= |left| && j <= |right| && i + j > 0
    ensures i == 0 ==> Cheapest(left, right, i, j) == Cheapest(left, right, i, j - 1) + [Insert(right[j - 1])]
    ensures j == 0 ==> Cheapest(left, right, i, j) == Cheapest(left, right, i - 1, j) + [Delete]
    ensures i == 0 ==> Distance(left, right, i, j) == Distance(left, right, i, j - 1) + 1
    ensures j == 0 ==> Distance(left, right, i, j) == Distance(left, right, i - 1, j) + 1
  {
  }

  /** The distance is attained by a script that turns one prefix into the other. */
  lemma {:induction false} DistanceIsAttained(left: string, right: string, i: nat, j: nat)
    requires i <= |left| && j <= |right|
    ensures Apply(Cheapest(left, right, i, j), left[..i]) == Some(right[..j])
    ensures Cost(Cheapest(left, right, i, j)) == Distance(left, right, i, j)
    decreases i + j
  {
    hide Apply, Cost, Distance, Cheapest;
    if i == 0 && j == 0 {
      AttainedNothing(left, right);
    } else if i == 0 {
      CheapestEdge(left, right, i, j);
      DistanceIsAttained(left, right, i, j - 1);
      Extended(Cheapest(left, right, i, j - 1), Insert(right[j - 1]), left, right, i, j - 1);
    } else if j == 0 {
      CheapestEdge(left, right, i, j);
      DistanceIsAttained(left, right, i - 1, j);
      Extended(Cheapest(left, right, i - 1, j), Delete, left, right, i - 1, j);
    } else {
      AttainedInside(left, right, i, j);
    }
  }

  lemma AttainedNothing(left: string, right: string)
    ensures Apply(Cheapest(left, right, 0, 0), left[..0]) == Some(right[..0])
    ensures Cost(Cheapest(left, right, 0, 0)) == Distance(left, right, 0, 0)
  {
  }

  lemma {:induction false} AttainedInside(left: string, right: string, i: nat, j: nat)
    requires 0 < i <= |left| && 0 < j <= |right|
    ensures Apply(Cheapest(left, right, i, j), left[..i]) == Some(right[..j])
    ensures Cost(Cheapest(left, right, i, j)) == Distance(left, right, i, j)
    decreases i + j, 0
  {
    var i', j', last := LastEdit(left, right, i, j);
    hide Apply, Cost, Distance, Cheapest, Best;
    DistanceIsAttained(left, right, i', j');
    Extended(Cheapest(left, right, i', j'), last, left, right, i', j');
  }

  /** The step the recursion took last, and the prefixes it came from. */
  lemma LastEdit(left: string, right: string, i: nat, j: nat) returns (i': nat, j': nat, last: Edit)
    requires 0 < i <= |left| && 0 < j <= |right|
    ensures i' <= i && j' <= j && i' + j' < i + j
    ensures Cheapest(left, right, i, j) == Cheapest(left, right, i', j') + [last]
    ensures Distance(left, right, i, j) == Distance(left, right, i', j') + (if last.Keep? then 0 else 1)
    ensures || (i' == i && j' == j - 1 && last == Insert(right[j']))
            || (i' == i - 1 && j' == j && last == Delete)
            || (i' == i - 1 && j' == j - 1 && (last == Substitute(right[j']) || (last == Keep && left[i'] == right[j'])))
            || (i' == i - 2 && j' == j - 2 && Transposed(left, right, i, j) && last == Swap)
  {
    Recurrence(left, right, i, j);
    var d := Distance(left, right, i, j);
    hide Distance;
    if Transposed(left, right, i, j) && d == Distance(left, right, i - 2, j - 2) + 1 {
      i', j', last := i - 2, j - 2, Swap;
    } else if d == Distance(left, right, i - 1, j) + 1 {
      i', j', last := i - 1, j, Delete;
    } else if d == Distance(left, right, i, j - 1) + 1 {
      i', j', last := i, j - 1, Insert(right[j - 1]);
    } else {
      i', j', last := i - 1, j - 1, if left[i - 1] == right[j - 1] then Keep else Substitute(right[j - 1]);
    }
  }

  // ---------------------------------------------------------------------
  // Laws of the distance
  // ---------------------------------------------------------------------

  lemma Recurrence(left: string, right: string, i: nat, j: nat)
    requires 0 < i <= |left| && 0 < j <= |right|
    ensures Distance(left, right, i, j) ==
            Best(left, right, i, j,
                 Distance(left, right, i - 1, j),
                 Distance(left, right, i, j - 1),
                 Distance(left, right, i - 1, j - 1),
                 if i > 1 && j > 1 then Distance(left, right, i - 2, j - 2) else 0)
  {
  }

  lemma BestSymmetric(left: string, right: string, i: nat, j: nat, up: nat, back: nat, diagonal: nat, swap: nat)
    requires 0 < i <= |left| && 0 < j <= |right|
    ensures Best(left, right, i, j, up, back, diagonal, swap) == Best(right, left, j, i, back, up, diagonal, swap)
  {
  }

  lemma {:induction false} DistanceSymmetric(left: string, right: string, i: nat, j: nat)
    requires i <= |left| && j <= |right|
    ensures Distance(left, right, i, j) == Distance(right, left, j, i)
    decreases i + j
  {
    if i > 0 && j > 0 {
      hide Distance, Best;
      Recurrence(left, right, i, j);
      Recurrence(right, left, j, i);
      BestSymmetric(left, right, i, j,
                    Distance(left, right, i - 1, j),
                    Distance(left, right, i, j - 1),
                    Distance(left, right, i - 1, j - 1),
                    if i > 1 && j > 1 then Distance(left, right, i - 2, j - 2) else 0);
      DistanceSymmetric(left, right, i - 1, j);
      DistanceSymmetric(left, right, i, j - 1);
      DistanceSymmetric(left, right, i - 1, j - 1);
      if i > 1 && j > 1 {
        DistanceSymmetric(left, right, i - 2, j - 2);
      }
    }
  }

  lemma EdgeDistance(left: string, right: string, i: nat, j: nat)
    requires i <= |left| && j <= |right|
    ensures i == 0 || j == 0 ==> Distance(left, right, i, j) == i + j
  {
  }

  lemma BestBounds(left: string, right: string, i: nat, j: nat, up: nat, back: nat, diagonal: nat, swap: nat)
    requires 0 < i <= |left| && 0 < j <= |right|
    requires i - 1 - j <= up && j - i + 1 <= up && i - j + 1 <= back && j - 1 - i <= back
    requires i - j <= diagonal && j - i <= diagonal && diagonal <= Max(i, j) - 1
    requires i > 1 && j > 1 ==> i - j <= swap && j - i <= swap
    ensures var best := Best(left, right, i, j, up, back, diagonal, swap);
            i - j <= best && j - i <= best && best <= Max(i, j)
  {
  }

  lemma {:induction false} DistanceBounds(left: string, right: string, i: nat, j: nat)
    requires i <= |left| && j <= |right|
    ensures i - j <= Distance(left, right, i, j)
    ensures j - i <= Distance(left, right, i, j)
    ensures Distance(left, right, i, j) <= Max(i, j)
    decreases i + j
  {
    hide Distance, Best;
    EdgeDistance(left, right, i, j);
    if i > 0 && j > 0 {
      Recurrence(left, right, i, j);
      DistanceBounds(left, right, i - 1, j);
      DistanceBounds(left, right, i, j - 1);
      DistanceBounds(left, right, i - 1, j - 1);
      if i > 1 && j > 1 {
        DistanceBounds(left, right, i - 2, j - 2);
      }
      BestBounds(left, right, i, j,
                 Distance(left, right, i - 1, j),
                 Distance(left, right, i, j - 1),
                 Distance(left, right, i - 1, j - 1),
                 if i > 1 && j > 1 then Distance(left, right, i - 2, j - 2) else 0);
    }
  }

  lemma BestZero(left: string, right: string, i: nat, j: nat, up: nat, back: nat, diagonal: nat, swap: nat)
    requires 0 < i <= |left| && 0 < j <= |right|
    ensures Best(left, right, i, j, up, back, diagonal, swap) == 0 <==> diagonal == 0 && left[i - 1] == right[j - 1]
  {
  }

  lemma {:induction false} DistanceZero(left: string, right: string, i: nat, j: nat)
    requires i <= |left| && j <= |right|
    ensures Distance(left, right, i, j) == 0 <==> left[..i] == right[..j]
    decreases i + j
  {
    if i > 0 && j > 0 {
      hide Distance, Best;
      Recurrence(left, right, i, j);
      BestZero(left, right, i, j,
               Distance(left, right, i - 1, j),
               Distance(left, right, i, j - 1),
               Distance(left, right, i - 1, j - 1),
               if i > 1 && j > 1 then Distance(left, right, i - 2, j - 2) else 0);
      DistanceZero(left, right, i - 1, j - 1);
      PrefixesEqual(left, right, i - 1, j - 1);
    }
  }

  lemma PrefixesEqual(left: string, right: string, i: nat, j: nat)
    requires i < |left| && j < |right|
    ensures left[..i + 1] == right[..j + 1] <==> left[..i] == right[..j] && left[i] == right[j]
  {
    assert left[..i + 1] == left[..i] + [left[i]];
    assert right[..j + 1] == right[..j] + [right[j]];
  }

  /** Editing a character at most once costs the triangle inequality. */
  lemma TriangleInequalityFails()
    ensures Distance("CA", "AC", 2, 2) == 1
    ensures Distance("AC", "ABC", 2, 3) == 1
    ensures Distance("CA", "ABC", 2, 3) == 3
  {
    var near, far := "AC", "ABC";
    assert Distance("CA", near, 1, 1) == 1;
    assert Distance(near, far, 1, 1) == 0;
    assert Distance(near, far, 1, 2) == 1;
    DistanceZero(near, far, 2, 3);
    assert Distance("CA", far, 1, 1) == 1;
    assert Distance("CA", far, 1, 2) == 2;
    assert Distance("CA", far, 1, 3) == 2;
    assert Distance("CA", far, 2, 1) == 1;
    assert Distance("CA", far, 2, 2) == 2;
  }

  // ---------------------------------------------------------------------
  // The in-place table
  // ---------------------------------------------------------------------

  predicate Shaped(distances: array2<nat>, left: string, right: string) {
    distances.Length0 == |left| + 1 && distances.Length1 == |right| + 1
  }

  /** The first `columns` entries of row i are distances. */
  predicate RowPrefix(distances: array2<nat>, left: string, right: string, i: nat, columns: nat)
    requires Shaped(distances, left, right) && i <= |left| && columns <= |right| + 1
    reads distances
  {
    forall j: nat :: j < columns ==> distances[i, j] == Distance(left, right, i, j)
  }

  predicate RowDone(distances: array2<nat>, left: string, right: string, i: nat)
    requires Shaped(distances, left, right) && i <= |left|
    reads distances
  {
    RowPrefix(distances, left, right, i, |right| + 1)
  }

  /** Fills the table row by row; every entry is the distance of its two prefixes. */
  method FillTable(left: string, right: string) returns (distances: array2<nat>)
    ensures Shaped(distances, left, right)
    ensures forall i: nat :: i <= |left| ==> RowDone(distances, left, right, i)
  {
    var rows := |left| + 1;
    var columns := |right| + 1;
    distances := new nat[rows, columns]((i, j) => 0);
    for row := 0 to rows
      invariant forall i: nat :: i < row ==> distances[i, 0] == i
    {
      distances[row, 0] := row;
    }
    for column := 0 to columns
      invariant forall i: nat :: i < rows ==> distances[i, 0] == i
      invariant forall j: nat :: j < column ==> distances[0, j] == j
    {
      distances[0, column] := column;
    }
    assert RowDone(distances, left, right, 0);
    for row := 1 to rows
      invariant forall i: nat :: row <= i < rows ==> distances[i, 0] == i
      invariant forall i: nat :: i < row ==> RowDone(distances, left, right, i)
    {
      FillRow(distances, left, right, row);
    }
  }

  /** The outer loop's body: row `row` from the two rows above it. */
  method FillRow(distances: array2<nat>, left: string, right: string, row: nat)
    requires Shaped(distances, left, right)
    requires 1 <= row <= |left|
    requires distances[row, 0] == row
    requires forall i: nat :: i < row ==> RowDone(distances, left, right, i)
    modifies distances
    ensures forall i: nat :: i <= row ==> RowDone(distances, left, right, i)
    ensures forall i: nat :: row < i <= |left| ==> distances[i, 0] == old(distances[i, 0])
  {
    for column := 1 to |right| + 1
      invariant forall i: nat :: i < row ==> RowDone(distances, left, right, i)
      invariant forall i: nat :: row < i <= |left| ==> distances[i, 0] == old(distances[i, 0])
      invariant RowPrefix(distances, left, right, row, column)
    {
      FillEntry(distances, left, right, row, column);
    }
  }

  /** The inner loop's body: one entry from its neighbours. */
  method FillEntry(distances: array2<nat>, left: string, right: string, row: nat, column: nat)
    requires Shaped(distances, left, right)
    requires 1 <= row <= |left| && 1 <= column <= |right|
    requires forall i: nat :: i < row ==> RowDone(distances, left, right, i)
    requires RowPrefix(distances, left, right, row, column)
    modifies distances
    ensures forall i: nat :: i < row ==> RowDone(distances, left, right, i)
    ensures RowPrefix(distances, left, right, row, column + 1)
    ensures forall i: nat :: row < i <= |left| ==> distances[i, 0] == old(distances[i, 0])
  {
    hide Distance;
    assert RowDone(distances, left, right, row - 1);
    assert row > 1 ==> RowDone(distances, left, right, row - 2);
    Recurrence(left, right, row, column);
    var substitutionCost := if left[row - 1] == right[column - 1] then 0 else 1;
    var distance := Min(Min(distances[row - 1, column] + 1, distances[row, column - 1] + 1),
                        distances[row - 1, column - 1] + substitutionCost);
    if row > 1 && column > 1 && left[row - 1] == right[column - 2] && left[row - 2] == right[column - 1] {
      distance := Min(distance, distances[row - 2, column - 2] + 1);
    }
    assert distance == Distance(left, right, row, column);
    hide Best;
    distances[row, column] := distance;
    forall i: nat | i < row ensures RowDone(distances, left, right, i) {
      assert old(RowDone(distances, left, right, i));
    }
  }

  /** The result is the least cost of any script from left to right. */
  method DamerauLevenshteinDistance(left: string, right: string) returns (distance: nat)
    ensures distance == Distance(left, right, |left|, |right|)
    ensures forall script :: Apply(script, left) == Some(right) ==> distance <= Cost(script)
    ensures exists script :: Apply(script, left) == Some(right) && Cost(script) == distance
  {
    var distances := FillTable(left, right);
    assert RowDone(distances, left, right, |left|);
    distance := distances[|left|, |right|];
    assert left[..|left|] == left && right[..|right|] == right;
    forall script | Apply(script, left) == Some(right) ensures distance <= Cost(script) {
      DistanceIsLowerBound(left, right, |left|, |right|, script);
    }
    DistanceIsAttained(left, right, |left|, |right|);
  }

  // ---------------------------------------------------------------------
  // The suggestion
  // ---------------------------------------------------------------------

  /** Sort key of a candidate: distance, then prefix bonus, then length difference. */
  datatype Rank = Rank(distance: nat, notPrefix: nat, lengthGap: nat)

  predicate RankLess(a: Rank, b: Rank) {
    || a.distance < b.distance
    || (a.distance == b.distance && a.notPrefix < b.notPrefix)
    || (a.distance == b.distance && a.notPrefix == b.notPrefix && a.lengthGap < b.lengthGap)
  }

  function RankOf(typed: string, candidate: string): Rank {
    Rank(Distance(typed, candidate, |typed|, |candidate|),
         if typed <= candidate then 0 else 1,
         if |candidate| >= |typed| then |candidate| - |typed| else |typed| - |candidate|)
  }

  function Threshold(typed: string): nat {
    if |typed| <= 4 then 1 else 2
  }

  predicate Near(typed: string, candidate: string) {
    Distance(typed, candidate, |typed|, |candidate|) <= Threshold(typed)
  }

  /** Character order on strings, the tie-break of the sort. */
  predicate TextLeq(a: string, b: string) {
    || a == []
    || (b != [] && (a[0] < b[0] || (a[0] == b[0] && TextLeq(a[1..], b[1..]))))
  }

  datatype Ranked = Ranked(rank: Rank, choice: string)

  predicate KeyLeq(a: Ranked, b: Ranked) {
    RankLess(a.rank, b.rank) || (a.rank == b.rank && TextLeq(a.choice, b.choice))
  }

  /** Stable insertion into an ordered list. */
  function Inserted(item: Ranked, items: seq<Ranked>): seq<Ranked> {
    if items == [] || !KeyLeq(items[0], item) then [item] + items
    else [items[0]] + Inserted(item, items[1..])
  }

  function SortRanked(items: seq<Ranked>): seq<Ranked> {
    if items == [] then [] else Inserted(items[|items| - 1], SortRanked(items[..|items| - 1]))
  }

  lemma {:induction false} InsertedElements(item: Ranked, items: seq<Ranked>)
    ensures multiset(Inserted(item, items)) == multiset(items) + multiset{item}
    ensures Inserted(item, items)[0] == item || (items != [] && Inserted(item, items)[0] == items[0])
  {
    if !(items == [] || !KeyLeq(items[0], item)) {
      InsertedElements(item, items[1..]);
      assert items == [items[0]] + items[1..];
    }
  }

  predicate Ordered(items: seq<Ranked>) {
    forall k, m :: 0 <= k < m < |items| ==> !RankLess(items[m].rank, items[k].rank)
  }

  /** An item that the first one does not exceed may go before an ordered list. */
  lemma OrderedCons(first: Ranked, rest: seq<Ranked>)
    requires Ordered(rest) && forall m :: 0 <= m < |rest| ==> !RankLess(rest[m].rank, first.rank)
    ensures Ordered([first] + rest)
  {
    hide RankLess;
    var all := [first] + rest;
    assert forall k :: 0 < k < |all| ==> all[k] == rest[k - 1];
  }

  lemma KeyLeqRank(a: Ranked, b: Ranked)
    ensures KeyLeq(a, b) ==> !RankLess(b.rank, a.rank)
    ensures !KeyLeq(a, b) ==> !RankLess(a.rank, b.rank)
  {
  }

  lemma RankOrder(a: Rank, b: Rank, c: Rank)
    requires !RankLess(b, a) && !RankLess(c, b)
    ensures !RankLess(c, a)
  {
  }

  lemma {:induction false} InsertedOrdered(item: Ranked, items: seq<Ranked>)
    requires Ordered(items)
    ensures Ordered(Inserted(item, items))
  {
    hide RankLess, KeyLeq;
    if items == [] {
    } else if !KeyLeq(items[0], item) {
      KeyLeqRank(items[0], item);
      forall m | 0 <= m < |items| ensures !RankLess(items[m].rank, item.rank) {
        if m > 0 {
          RankOrder(item.rank, items[0].rank, items[m].rank);
        }
      }
      OrderedCons(item, items);
    } else {
      InsertedOrdered(item, items[1..]);
      var rest := Inserted(item, items[1..]);
      InsertedElements(item, items[1..]);
      KeyLeqRank(items[0], item);
      forall m | 0 <= m < |rest| ensures !RankLess(rest[m].rank, items[0].rank) {
        assert rest[m] in multiset(rest);
        if rest[m] != item {
          assert rest[m] in multiset(items[1..]);
        }
      }
      OrderedCons(items[0], rest);
    }
  }

  lemma {:induction false} SortRankedCorrect(items: seq<Ranked>)
    ensures multiset(SortRanked(items)) == multiset(items)
    ensures Ordered(SortRanked(items))
  {
    if items != [] {
      var rest := items[..|items| - 1];
      SortRankedCorrect(rest);
      assert items == rest + [items[|items| - 1]];
      InsertedElements(items[|items| - 1], SortRanked(rest));
      InsertedOrdered(items[|items| - 1], SortRanked(rest));
    }
  }

  /** Choice k is within the threshold and strictly outranks every other such choice. */
  ghost predicate UniqueBest(typed: string, folded: seq<string>, k: nat) {
    && k < |folded| && Near(typed, folded[k])
    && forall m: nat :: m < |folded| && m != k && Near(typed, folded[m]) ==>
         RankLess(RankOf(typed, folded[k]), RankOf(typed, folded[m]))
  }

  ghost predicate StrictLeast(items: seq<Ranked>, p: nat) {
    p < |items| && forall q: nat :: q < |items| && q != p ==> RankLess(items[p].rank, items[q].rank)
  }

  function Without(s: seq<Ranked>, p: nat): seq<Ranked>
    requires p < |s|
  {
    s[..p] + s[p + 1..]
  }

  lemma WithoutElements(s: seq<Ranked>, p: nat)
    requires p < |s|
    ensures multiset(Without(s, p)) == multiset(s) - multiset{s[p]}
  {
    assert s == s[..p] + [s[p]] + s[p + 1..];
  }

  lemma OtherPlace(s: seq<Ranked>, p: nat, x: Ranked)
    requires p < |s|
    ensures x in Without(s, p) <==> exists q: nat :: q < |s| && q != p && s[q] == x
  {
    var rest := Without(s, p);
    if x in rest {
      var k :| 0 <= k < |rest| && rest[k] == x;
      assert s[if k < p then k else k + 1] == x;
    }
    if q: nat :| q < |s| && q != p && s[q] == x {
      assert rest[if q < p then q else q - 1] == x;
    }
  }

  /** A strictly least element stays strictly least in every reordering. */
  lemma StrictLeastPermuted(s: seq<Ranked>, t: seq<Ranked>, p: nat) returns (r: nat)
    requires multiset(s) == multiset(t) && StrictLeast(s, p)
    ensures StrictLeast(t, r) && t[r] == s[p]
  {
    assert s[p] in multiset(t);
    r :| r < |t| && t[r] == s[p];
    WithoutElements(s, p);
    WithoutElements(t, r);
    hide RankLess, Without;
    forall q: nat | q < |t| && q != r ensures RankLess(t[r].rank, t[q].rank) {
      OtherPlace(t, r, t[q]);
      assert t[q] in multiset(Without(s, p));
      OtherPlace(s, p, t[q]);
    }
  }

  /** Places of the choices within the threshold, in order. */
  ghost predicate Collected(typed: string, choices: seq<string>, folded: seq<string>,
                            ranked: seq<Ranked>, places: seq<nat>, upto: nat)
  {
    && |choices| == |folded| && upto <= |choices| && |places| == |ranked|
    && (forall m: nat :: m < |places| ==>
          && places[m] < upto
          && Near(typed, folded[places[m]])
          && ranked[m] == Ranked(RankOf(typed, folded[places[m]]), choices[places[m]]))
    && Distinct(places)
    && (forall k: nat :: k < upto && Near(typed, folded[k]) ==> k in places)
  }

  /** One more choice examined: appended exactly when it is near enough. */
  lemma CollectedStep(typed: string, choices: seq<string>, folded: seq<string>, ranked: seq<Ranked>,
      places: seq<nat>, k: nat)
    requires Collected(typed, choices, folded, ranked, places, k) && k < |choices|
    ensures !Near(typed, folded[k]) ==> Collected(typed, choices, folded, ranked, places, k + 1)
    ensures Near(typed, folded[k]) ==>
              Collected(typed, choices, folded, ranked + [Ranked(RankOf(typed, folded[k]), choices[k])], places + [k], k + 1)
  {
    hide Near, RankOf;
    if Near(typed, folded[k]) {
      var more := places + [k];
      forall m: nat | m < k + 1 && Near(typed, folded[m]) ensures m in more {
        assert m == k ==> more[|places|] == m;
      }
    }
  }

  lemma BestCollected(typed: string, choices: seq<string>, folded: seq<string>, ranked: seq<Ranked>,
      places: seq<nat>, m: nat)
    requires Collected(typed, choices, folded, ranked, places, |choices|)
    requires m < |places|
    ensures UniqueBest(typed, folded, places[m]) <==> StrictLeast(ranked, m)
  {
    if StrictLeast(ranked, m) {
      forall k: nat | k < |folded| && k != places[m] && Near(typed, folded[k])
        ensures RankLess(RankOf(typed, folded[places[m]]), RankOf(typed, folded[k]))
      {
        var q :| 0 <= q < |places| && places[q] == k;
        assert ranked[q].rank == RankOf(typed, folded[k]);
      }
    }
    if UniqueBest(typed, folded, places[m]) {
      forall q: nat | q < |ranked| && q != m ensures RankLess(ranked[m].rank, ranked[q].rank) {
        assert places[q] != places[m];
      }
    }
  }

  /**
   * The suggested command: the choice within the threshold that strictly
   * outranks all others, if there is one. Case folding is the caller's.
   */
  method ClosestCommand(value: string, choices: seq<string>, casefold: string -> string)
    returns (suggestion: Option<string>)
    ensures var typed := casefold(value); typed == [] || |typed| > 128 ==> suggestion == None
    ensures var typed, folded := casefold(value), seq(|choices|, k requires 0 <= k < |choices| => casefold(choices[k]));
            0 < |typed| <= 128 ==>
              && (suggestion.Some? ==> exists k: nat :: UniqueBest(typed, folded, k) && suggestion.value == choices[k])
              && (suggestion.None? ==> forall k: nat :: !UniqueBest(typed, folded, k))
  {
    var normalized := casefold(value);
    if normalized == [] || |normalized| > 128 {
      return None;
    }
    var maximumDistance := if |normalized| <= 4 then 1 else 2;
    var ranked: seq<Ranked> := [];
    ghost var places: seq<nat> := [];
    ghost var folded := seq(|choices|, k requires 0 <= k < |choices| => casefold(choices[k]));
    assert Collected(normalized, choices, folded, ranked, places, 0);
    hide Distance, Collected, UniqueBest, SortRanked, Selected;
    for index := 0 to |choices|
      invariant Collected(normalized, choices, folded, ranked, places, index)
    {
      var candidate := casefold(choices[index]);
      var distance := DamerauLevenshteinDistance(normalized, candidate);
      CollectedStep(normalized, choices, folded, ranked, places, index);
      if distance <= maximumDistance {
        var rank := Rank(distance, if normalized <= candidate then 0 else 1,
                         if |candidate| >= |normalized| then |candidate| - |normalized| else |normalized| - |candidate|);
        ranked, places := ranked + [Ranked(rank, choices[index])], places + [index];
      }
    }
    if ranked == [] {
      return None;
    }
    ghost var collected := ranked;
    ranked := SortRanked(ranked);
    suggestion := Selected(ranked);
    SelectionIsUniqueBest(normalized, choices, folded, collected, places);
  }

  /** The first ranked choice, unless the second ties with it. */
  function Selected(ranked: seq<Ranked>): Option<string>
    requires ranked != []
  {
    if |ranked| > 1 && ranked[0].rank == ranked[1].rank then None else Some(ranked[0].choice)
  }

  lemma SelectionIsUniqueBest(typed: string, choices: seq<string>, folded: seq<string>, ranked: seq<Ranked>,
      places: seq<nat>)
    requires Collected(typed, choices, folded, ranked, places, |choices|) && ranked != []
    ensures SortRanked(ranked) != []
    ensures var suggestion := Selected(SortRanked(ranked));
            && (suggestion.Some? ==> exists k: nat :: UniqueBest(typed, folded, k) && suggestion.value == choices[k])
            && (suggestion.None? ==> forall k: nat :: !UniqueBest(typed, folded, k))
  {
    SortRankedCorrect(ranked);
    var sorted := SortRanked(ranked);
    assert |sorted| == |multiset(sorted)| == |ranked|;
    if |sorted| > 1 && sorted[0].rank == sorted[1].rank {
      forall k: nat ensures !UniqueBest(typed, folded, k) {
        if UniqueBest(typed, folded, k) {
          var m :| 0 <= m < |places| && places[m] == k;
          BestCollected(typed, choices, folded, ranked, places, m);
          var r := StrictLeastPermuted(ranked, sorted, m);
          assert false;
        }
      }
    } else {
      assert StrictLeast(sorted, 0) by {
        forall q: nat | q < |sorted| && q != 0 ensures RankLess(sorted[0].rank, sorted[q].rank) {
          assert !RankLess(sorted[1].rank, sorted[0].rank);
          assert q > 1 ==> !RankLess(sorted[q].rank, sorted[1].rank);
        }
      }
      var m := StrictLeastPermuted(sorted, ranked, 0);
      BestCollected(typed, choices, folded, ranked, places, m);
    }
  }
}
