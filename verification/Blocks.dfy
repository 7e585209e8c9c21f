/** Cutting a sequence into whole blocks of one size, and joining blocks again. */
module Blocks {

  /** The product a * b by repeated addition, so that offsets stay linear in proofs; see TimesIsProduct. */
  function Times(a: nat, b: nat): nat {
    if a == 0 then 0 else Times(a - 1, b) + b
  }

  lemma {:induction false} TimesIsProduct(a: nat, b: nat)
    ensures Times(a, b) == a * b
  {
    if a > 0 {
      TimesIsProduct(a - 1, b);
      assert a * b == (a - 1) * b + b;
    }
  }

  lemma {:induction false} TimesLe(a: nat, b: nat, c: nat)
    requires a <= b
    ensures Times(a, c) <= Times(b, c)
  {
    if a < b {
      TimesLe(a, b - 1, c);
    }
  }

  /** The length of the whole blocks in n elements, by repeated subtraction; see WholeLengthIs. */
  function WholeLength(n: nat, size: nat): (whole: nat)
    requires size > 0
    ensures whole <= n < whole + size
  {
    if n < size then 0 else size + WholeLength(n - size, size)
  }

  lemma {:induction false} WholeLengthTimes(n: nat, size: nat)
    requires size > 0
    ensures WholeLength(Times(n, size), size) == Times(n, size)
  {
    if n > 0 {
      WholeLengthTimes(n - 1, size);
    }
  }

  lemma {:induction false} WholeLengthIs(n: nat, size: nat)
    requires size > 0
    ensures exists count: nat :: WholeLength(n, size) == count * size && n / size == count
  {
    if n < size {
      DivUnique(n, 0, size);
      assert WholeLength(n, size) == 0 * size;
    } else {
      WholeLengthIs(n - size, size);
      var count: nat :| WholeLength(n - size, size) == count * size && (n - size) / size == count;
      assert (count + 1) * size == count * size + size;
      DivUnique(n, count + 1, size);
      assert WholeLength(n, size) == (count + 1) * size;
    }
  }

  lemma {:induction false} TimesAdd(a: nat, b: nat, size: nat)
    ensures Times(a + b, size) == Times(a, size) + Times(b, size)
  {
    if a > 0 {
      TimesAdd(a - 1, b, size);
      assert a + b - 1 == a - 1 + b;
    }
  }

  lemma {:induction false} WholeLengthAfter(n: nat, rest: nat, size: nat)
    requires size > 0
    ensures WholeLength(Times(n, size) + rest, size) == Times(n, size) + WholeLength(rest, size)
  {
    if n > 0 {
      WholeLengthAfter(n - 1, rest, size);
    }
  }

  /** What the program computes with / and %. */
  lemma WholeDivMod(n: nat, size: nat)
    requires size > 0
    ensures Times(n / size, size) == WholeLength(n, size)
    ensures n % size == 0 <==> WholeLength(n, size) == n
  {
    WholeLengthIs(n, size);
    TimesIsProduct(n / size, size);
    assert n == n / size * size + n % size;
  }

  /** Every block has this size. */
  ghost predicate AllOf<T>(blocks: seq<seq<T>>, size: nat) {
    forall i :: 0 <= i < |blocks| ==> |blocks[i]| == size
  }

  function Cut<T>(s: seq<T>, size: nat): (blocks: seq<seq<T>>)
    requires size > 0
    ensures AllOf(blocks, size)
  {
    if |s| < size then [] else [s[..size]] + Cut(s[size..], size)
  }

  function Join<T>(blocks: seq<seq<T>>): seq<T> {
    if |blocks| == 0 then [] else blocks[0] + Join(blocks[1..])
  }

  lemma {:induction false} JoinLength<T>(blocks: seq<seq<T>>, size: nat)
    requires AllOf(blocks, size)
    ensures |Join(blocks)| == Times(|blocks|, size)
  {
    if |blocks| > 0 {
      JoinLength(blocks[1..], size);
    }
  }

  lemma CutFirst<T>(first: seq<T>, tail: seq<T>)
    requires |first| > 0
    ensures Cut(first + tail, |first|) == [first] + Cut(tail, |first|)
  {
    var s := first + tail;
    assert s[..|first|] == first;
    assert s[|first|..] == tail;
  }

  /** Blocks joined in front of a rest are cut off again, whatever the rest is. */
  lemma {:induction false} CutJoinAppend<T>(blocks: seq<seq<T>>, rest: seq<T>, size: nat)
    requires size > 0 && AllOf(blocks, size)
    ensures Cut(Join(blocks) + rest, size) == blocks + Cut(rest, size)
  {
    if |blocks| == 0 {
      assert Join(blocks) + rest == rest;
    } else {
      var first, others := blocks[0], blocks[1..];
      var tail := Join(others) + rest;
      calc {
        Cut(Join(blocks) + rest, size);
        { assert Join(blocks) + rest == first + tail; }
        Cut(first + tail, size);
        { CutFirst(first, tail); }
        [first] + Cut(tail, size);
        { CutJoinAppend(others, rest, size); }
        [first] + (others + Cut(rest, size));
        { assert [first] + others == blocks; }
        blocks + Cut(rest, size);
      }
    }
  }

  /** Cutting what was joined from equal blocks gives those blocks back. */
  lemma CutJoin<T>(blocks: seq<seq<T>>, size: nat)
    requires size > 0 && AllOf(blocks, size)
    ensures Cut(Join(blocks), size) == blocks
  {
    CutJoinAppend(blocks, [], size);
    assert Join(blocks) + [] == Join(blocks);
  }

  /** Joining the blocks of s gives s back up to its last whole block. */
  lemma {:induction false} JoinCut<T>(s: seq<T>, size: nat)
    requires size > 0
    ensures Join(Cut(s, size)) <= s && |s| - |Join(Cut(s, size))| < size
  {
    if |s| >= size {
      JoinCut(s[size..], size);
      assert Cut(s, size)[1..] == Cut(s[size..], size);
      assert s == s[..size] + s[size..];
    }
  }

  lemma MulLe(a: int, b: int, c: nat)
    requires a <= b
    ensures a * c <= b * c
  {
  }

  lemma DivUnique(x: nat, q: nat, d: nat)
    requires d > 0 && q * d <= x < q * d + d
    ensures x / d == q
  {
    var p := x / d;
    assert p * d + x % d == x;
    if p < q {
      MulLe(p + 1, q, d);
      assert false;
    }
    if p > q {
      MulLe(q + 1, p, d);
      assert false;
    }
  }

  lemma CutCount<T>(s: seq<T>, size: nat)
    requires size > 0
    ensures |Cut(s, size)| == |s| / size
  {
    JoinCut(s, size);
    JoinLength(Cut(s, size), size);
    TimesIsProduct(|Cut(s, size)|, size);
    DivUnique(|s|, |Cut(s, size)|, size);
  }

  /** The number of whole blocks is the number that fits. */
  lemma CutFits<T>(s: seq<T>, size: nat, n: nat)
    requires size > 0
    ensures Times(n, size) <= |s| <==> n <= |Cut(s, size)|
  {
    var count := |Cut(s, size)|;
    JoinCut(s, size);
    JoinLength(Cut(s, size), size);
    if n <= count {
      TimesLe(n, count, size);
    } else {
      TimesLe(count + 1, n, size);
    }
  }

  /** Block number m starts m blocks into the sequence. */
  lemma {:induction false} CutAt<T>(s: seq<T>, size: nat, m: nat)
    requires size > 0 && m < |Cut(s, size)|
    ensures Times(m, size) + size <= |s|
    ensures Cut(s, size)[m] == s[Times(m, size)..Times(m, size) + size]
  {
    if m > 0 {
      CutAt(s[size..], size, m - 1);
    }
  }

  /** Block number m of joined equal blocks. */
  lemma JoinAt<T>(blocks: seq<seq<T>>, size: nat, m: nat)
    requires size > 0 && AllOf(blocks, size) && m < |blocks|
    ensures Times(m, size) + size <= |Join(blocks)|
    ensures Join(blocks)[Times(m, size)..Times(m, size) + size] == blocks[m]
  {
    CutJoin(blocks, size);
    CutAt(Join(blocks), size, m);
  }

  lemma SliceOfSlice<T>(s: seq<T>, from: nat, to: nat, low: nat, high: nat)
    requires from <= to <= |s| && low <= high <= to - from
    ensures s[from..to][low..high] == s[from + low..from + high]
  {
    assert |s[from..to][low..high]| == high - low;
    assert forall k :: 0 <= k < high - low ==> s[from..to][low..high][k] == s[from + low..from + high][k];
  }

  lemma SliceOfBlock<T>(s: seq<T>, from: nat, size: nat, block: seq<T>, low: nat, width: nat)
    requires from + size <= |s| && s[from..from + size] == block && low + width <= |block|
    ensures from + low + width <= |s| && s[from + low..from + low + width] == block[low..low + width]
  {
    SliceOfSlice(s, from, from + size, low, low + width);
  }

  /** Cell number c of block number m, when the blocks are themselves joined from equal cells. */
  lemma JoinInside<T>(blocks: seq<seq<T>>, size: nat, m: nat, cells: seq<seq<T>>, width: nat, c: nat)
    requires size > 0 && AllOf(blocks, size) && m < |blocks|
    requires width > 0 && AllOf(cells, width) && c < |cells| && blocks[m] == Join(cells)
    ensures Times(m, size) + Times(c, width) + width <= |Join(blocks)|
    ensures Join(blocks)[Times(m, size) + Times(c, width)..Times(m, size) + Times(c, width) + width] == cells[c]
  {
    hide *;
    JoinAt(blocks, size, m);
    JoinAt(cells, width, c);
    SliceOfBlock(Join(blocks), Times(m, size), size, blocks[m], Times(c, width), width);
  }
}
