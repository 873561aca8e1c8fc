/**
 * When distances of words add up. Because a character may be edited only once,
 * the restricted distance can be larger than a detour through a third word;
 * without transpositions it cannot, and never by more than a factor of two.
 */
module TriangleInequality {
  import opened Common
  import opened EditDistance

  /** The distance without transpositions. */
  function Plain(left: string, right: string, i: nat, j: nat): nat
    requires i <= |left| && j <= |right|
    decreases i + j
  {
    if i == 0 || j == 0 then i + j
    else
      Min(Min(Plain(left, right, i - 1, j) + 1, Plain(left, right, i, j - 1) + 1),
          Plain(left, right, i - 1, j - 1) + Mismatch(left, right, i, j))
  }

  function Mismatch(left: string, right: string, i: nat, j: nat): nat
    requires 0 < i <= |left| && 0 < j <= |right|
  {
    if left[i - 1] == right[j - 1] then 0 else 1
  }

  lemma PlainStep(left: string, right: string, i: nat, j: nat)
    requires 0 < i <= |left| && 0 < j <= |right|
    ensures Plain(left, right, i, j) <= Plain(left, right, i - 1, j) + 1
    ensures Plain(left, right, i, j) <= Plain(left, right, i, j - 1) + 1
    ensures Plain(left, right, i, j) <= Plain(left, right, i - 1, j - 1) + Mismatch(left, right, i, j)
    ensures || Plain(left, right, i, j) == Plain(left, right, i - 1, j) + 1
            || Plain(left, right, i, j) == Plain(left, right, i, j - 1) + 1
            || Plain(left, right, i, j) == Plain(left, right, i - 1, j - 1) + Mismatch(left, right, i, j)
  {
  }

  lemma {:induction false} PlainBounds(left: string, right: string, i: nat, j: nat)
    requires i <= |left| && j <= |right|
    ensures i - j <= Plain(left, right, i, j) && j - i <= Plain(left, right, i, j) <= i + j
    decreases i + j
  {
    hide Plain, Mismatch;
    if i > 0 && j > 0 {
      PlainBounds(left, right, i - 1, j);
      PlainBounds(left, right, i, j - 1);
      PlainBounds(left, right, i - 1, j - 1);
      PlainStep(left, right, i, j);
    } else {
      PlainEdge(left, right, i, j);
    }
  }

  /** A distance as the best of three ways to end: from above, from the left, diagonally at a cost. */
  predicate BestOf(d: nat, up: nat, back: nat, diagonal: nat, cost: nat) {
    && d <= up + 1 && d <= back + 1 && d <= diagonal + cost
    && (d == up + 1 || d == back + 1 || d == diagonal + cost)
  }

  lemma Detour(xz: nat, upXZ: nat, backXZ: nat, diagonalXZ: nat, costXZ: nat,
               xy: nat, upXY: nat, backXY: nat, diagonalXY: nat, costXY: nat,
               yz: nat, upYZ: nat, backYZ: nat, diagonalYZ: nat, costYZ: nat)
    requires BestOf(xz, upXZ, backXZ, diagonalXZ, costXZ) && costXZ <= costXY + costYZ
    requires BestOf(xy, upXY, backXY, diagonalXY, costXY) && BestOf(yz, upYZ, backYZ, diagonalYZ, costYZ)
    requires upXZ <= upXY + yz && backXZ <= xy + backYZ && xz <= backXY + upYZ
    requires backXZ <= backXY + diagonalYZ && upXZ <= diagonalXY + upYZ && diagonalXZ <= diagonalXY + diagonalYZ
    ensures xz <= xy + yz
  {
  }

  lemma PlainBest(left: string, right: string, i: nat, j: nat)
    requires 0 < i <= |left| && 0 < j <= |right|
    ensures BestOf(Plain(left, right, i, j), Plain(left, right, i - 1, j), Plain(left, right, i, j - 1),
                   Plain(left, right, i - 1, j - 1), Mismatch(left, right, i, j))
  {
    PlainStep(left, right, i, j);
  }

  lemma PlainEdge(left: string, right: string, i: nat, j: nat)
    requires i <= |left| && j <= |right| && (i == 0 || j == 0)
    ensures Plain(left, right, i, j) == i + j
  {
  }

  lemma DetourAtEdge(x: string, y: string, z: string, i: nat, j: nat, k: nat)
    requires i <= |x| && j <= |y| && k <= |z| && (i == 0 || j == 0 || k == 0)
    ensures Plain(x, z, i, k) <= Plain(x, y, i, j) + Plain(y, z, j, k)
  {
    hide Plain;
    PlainBounds(x, y, i, j);
    PlainBounds(y, z, j, k);
    PlainBounds(x, z, i, k);
    if i == 0 {
      PlainEdge(x, y, i, j);
    } else if k == 0 {
      PlainEdge(y, z, j, k);
    } else {
      PlainEdge(x, y, i, j);
      PlainEdge(y, z, j, k);
    }
  }

  lemma MismatchTriangle(x: string, y: string, z: string, i: nat, j: nat, k: nat)
    requires 0 < i <= |x| && 0 < j <= |y| && 0 < k <= |z|
    ensures Mismatch(x, z, i, k) <= Mismatch(x, y, i, j) + Mismatch(y, z, j, k)
  {
  }

  /** Without transpositions a detour is never shorter. */
  lemma {:induction false} PlainTriangle(x: string, y: string, z: string, i: nat, j: nat, k: nat)
    requires i <= |x| && j <= |y| && k <= |z|
    ensures Plain(x, z, i, k) <= Plain(x, y, i, j) + Plain(y, z, j, k)
    decreases i + j + k
  {
    hide Plain, BestOf, Mismatch;
    if i == 0 || j == 0 || k == 0 {
      DetourAtEdge(x, y, z, i, j, k);
    } else {
      PlainBest(x, y, i, j);
      PlainBest(y, z, j, k);
      PlainBest(x, z, i, k);
      MismatchTriangle(x, y, z, i, j, k);
      PlainTriangle(x, y, z, i - 1, j, k);
      PlainTriangle(x, y, z, i, j, k - 1);
      PlainTriangle(x, y, z, i, j - 1, k);
      PlainTriangle(x, y, z, i, j - 1, k - 1);
      PlainTriangle(x, y, z, i - 1, j - 1, k);
      PlainTriangle(x, y, z, i - 1, j - 1, k - 1);
      Detour(Plain(x, z, i, k), Plain(x, z, i - 1, k), Plain(x, z, i, k - 1), Plain(x, z, i - 1, k - 1), Mismatch(x, z, i, k),
             Plain(x, y, i, j), Plain(x, y, i - 1, j), Plain(x, y, i, j - 1), Plain(x, y, i - 1, j - 1), Mismatch(x, y, i, j),
             Plain(y, z, j, k), Plain(y, z, j - 1, k), Plain(y, z, j, k - 1), Plain(y, z, j - 1, k - 1), Mismatch(y, z, j, k));
    }
  }

  /** From the neighbours' bounds to the entry's: a swap is worth two plain edits. */
  lemma Doubled(left: string, right: string, i: nat, j: nat, up: nat, back: nat, diagonal: nat, swap: nat,
                plain: nat, upPlain: nat, backPlain: nat, diagonalPlain: nat, swapPlain: nat)
    requires 0 < i <= |left| && 0 < j <= |right|
    requires BestOf(plain, upPlain, backPlain, diagonalPlain, Mismatch(left, right, i, j))
    requires up <= upPlain <= 2 * up && back <= backPlain <= 2 * back && diagonal <= diagonalPlain <= 2 * diagonal
    requires i > 1 && j > 1 ==> swapPlain <= 2 * swap && diagonalPlain <= swapPlain + 1
    ensures Best(left, right, i, j, up, back, diagonal, swap) <= plain <= 2 * Best(left, right, i, j, up, back, diagonal, swap)
  {
  }

  lemma PlainDiagonal(left: string, right: string, i: nat, j: nat)
    requires 0 < i <= |left| && 0 < j <= |right|
    ensures Plain(left, right, i, j) <= Plain(left, right, i - 1, j - 1) + 1
  {
    PlainStep(left, right, i, j);
  }

  lemma SameAtEdge(left: string, right: string, i: nat, j: nat)
    requires i <= |left| && j <= |right| && (i == 0 || j == 0)
    ensures Distance(left, right, i, j) == Plain(left, right, i, j)
  {
  }

  /** A swap saves at most one edit: the distance lies between the plain one and its half. */
  lemma {:induction false} SwapsSaveHalf(left: string, right: string, i: nat, j: nat)
    requires i <= |left| && j <= |right|
    ensures Distance(left, right, i, j) <= Plain(left, right, i, j) <= 2 * Distance(left, right, i, j)
    decreases i + j
  {
    hide Distance, Plain, BestOf, Best, Mismatch;
    if i > 0 && j > 0 {
      Recurrence(left, right, i, j);
      PlainBest(left, right, i, j);
      SwapsSaveHalf(left, right, i - 1, j);
      SwapsSaveHalf(left, right, i, j - 1);
      SwapsSaveHalf(left, right, i - 1, j - 1);
      var swaps := i > 1 && j > 1;
      if swaps {
        SwapsSaveHalf(left, right, i - 2, j - 2);
        PlainDiagonal(left, right, i - 1, j - 1);
      }
      Doubled(left, right, i, j, Distance(left, right, i - 1, j), Distance(left, right, i, j - 1),
              Distance(left, right, i - 1, j - 1), if swaps then Distance(left, right, i - 2, j - 2) else 0,
              Plain(left, right, i, j), Plain(left, right, i - 1, j), Plain(left, right, i, j - 1),
              Plain(left, right, i - 1, j - 1), if swaps then Plain(left, right, i - 2, j - 2) else 0);
    } else {
      SameAtEdge(left, right, i, j);
    }
  }

  /** No two neighbouring characters of one word stand swapped in the other. */
  ghost predicate NoTransposition(left: string, right: string) {
    forall i: nat, j: nat :: i <= |left| && j <= |right| ==> !Transposed(left, right, i, j)
  }

  lemma {:induction false} NothingToSwap(left: string, right: string, i: nat, j: nat)
    requires i <= |left| && j <= |right| && NoTransposition(left, right)
    ensures Distance(left, right, i, j) == Plain(left, right, i, j)
    decreases i + j
  {
    hide Distance, Plain;
    if i > 0 && j > 0 {
      assert !Transposed(left, right, i, j);
      hide NoTransposition, Transposed;
      Recurrence(left, right, i, j);
      PlainStep(left, right, i, j);
      NothingToSwap(left, right, i - 1, j);
      NothingToSwap(left, right, i, j - 1);
      NothingToSwap(left, right, i - 1, j - 1);
    } else {
      SameAtEdge(left, right, i, j);
    }
  }

  function Between(x: string, y: string): nat {
    Distance(x, y, |x|, |y|)
  }

  /** The triangle inequality holds whenever neither leg has anything to swap. */
  lemma TriangleWithoutTransposition(x: string, y: string, z: string)
    requires NoTransposition(x, y) && NoTransposition(y, z)
    ensures Between(x, z) <= Between(x, y) + Between(y, z)
  {
    hide Distance, Plain, NoTransposition;
    NothingToSwap(x, y, |x|, |y|);
    NothingToSwap(y, z, |y|, |z|);
    SwapsSaveHalf(x, z, |x|, |z|);
    PlainTriangle(x, y, z, |x|, |y|, |z|);
  }

  /** For all words the direct way is at most twice the detour. */
  lemma TriangleWithinTwice(x: string, y: string, z: string)
    ensures Between(x, z) <= 2 * (Between(x, y) + Between(y, z))
  {
    hide Distance, Plain;
    SwapsSaveHalf(x, y, |x|, |y|);
    SwapsSaveHalf(y, z, |y|, |z|);
    SwapsSaveHalf(x, z, |x|, |z|);
    PlainTriangle(x, y, z, |x|, |y|, |z|);
  }
}
