/**
 * Model of `BlockChunker` from sonar-duplications: it cuts a file's statements into
 * overlapping blocks of `blockSize` statements, each carrying a 64-bit Rabin-Karp
 * rolling hash of the statements' values.
 *
 * A Java `long` is represented by its bit pattern read as an unsigned number, that is
 * its residue modulo 2^64 (`Long`); every `long` operation of the source is followed
 * by an explicit `Wrap64`. A Java `int` result is brought back into [-2^31, 2^31)
 * by `Wrap32`.
 */
module Chunker {
  import opened Seqs

  const PRIME_BASE: int := 31
  const LONG_MODULUS: int := 0x1_0000_0000_0000_0000
  const INT_MODULUS: int := 0x1_0000_0000

  type Long = x: int | 0 <= x < LONG_MODULUS

  /** Two's-complement wrap-around of a 64-bit `long` operation. */
  function Wrap64(x: int): Long
  {
    x % LONG_MODULUS
  }

  /** Two's-complement wrap-around of a 32-bit `int` operation. */
  function Wrap32(x: int): (r: int)
    ensures -0x8000_0000 <= r < 0x8000_0000
  {
    var m := x % INT_MODULUS;
    if m < 0x8000_0000 then m else m - INT_MODULUS
  }

  /** `String.hashCode`'s recurrence h = 31 * h + c, in `int` arithmetic, over the string's characters. */
  function StringHashCode(s: string): (h: int)
    ensures -0x8000_0000 <= h < 0x8000_0000
  {
    if s == [] then 0 else Wrap32(31 * StringHashCode(s[..|s| - 1]) + s[|s| - 1] as int)
  }

  function Pow(b: int, e: nat): int
  {
    if e == 0 then 1 else Pow(b, e - 1) * b
  }

  /** A statement of the tokenized source: its line range and its normalized text. */
  datatype Statement = Statement(startLine: int, endLine: int, value: string)

  /** A block of consecutive statements; `blockHash` holds the 8 bytes of the `long` hash. */
  datatype Block = Block(resourceId: string, blockHash: Long, indexInFile: int, startLine: int, endLine: int)

  function Code(st: Statement): int
  {
    StringHashCode(st.value)
  }

  // ---------------------------------------------------------------------
  // Filtering runs of equal statements
  // ---------------------------------------------------------------------

  /** End (exclusive) of the maximal run of statements starting at `i` whose value equals `s[i]`'s. */
  function RunEnd(s: seq<Statement>, i: nat): (j: nat)
    requires i < |s|
    ensures i < j <= |s|
    decreases |s| - i
  {
    if i + 1 < |s| && s[i + 1].value == s[i].value then RunEnd(s, i + 1) else i + 1
  }

  /** The run is maximal: all of it shares the value of `s[i]`, and the statement after it does not. */
  lemma {:induction false} RunEndMaximal(s: seq<Statement>, i: nat)
    requires i < |s|
    ensures forall k :: i <= k < RunEnd(s, i) ==> s[k].value == s[i].value
    ensures RunEnd(s, i) == |s| || s[RunEnd(s, i)].value != s[i].value
    decreases |s| - i
  {
    if i + 1 < |s| && s[i + 1].value == s[i].value {
      RunEndMaximal(s, i + 1);
    }
  }

  /** The two conditions of `RunEndMaximal` determine the end of the run. */
  lemma RunEndUnique(s: seq<Statement>, i: nat, j: nat)
    requires i < j <= |s|
    requires forall k :: i <= k < j ==> s[k].value == s[i].value
    requires j == |s| || s[j].value != s[i].value
    ensures RunEnd(s, i) == j
  {
    RunEndMaximal(s, i);
  }

  /** What survives of the run `s[i..j]`: its first statement, and its last one when it is longer than one. */
  function RunKept(s: seq<Statement>, i: nat, j: nat): seq<Statement>
    requires i < j <= |s|
  {
    if j - i > 1 then [s[i], s[j - 1]] else [s[i]]
  }

  /**
   * The statements from index `i` on, with each maximal run of consecutive equal values
   * replaced by its first statement and, when the run is longer than one, its last statement.
   */
  function CollapseFrom(s: seq<Statement>, i: nat): seq<Statement>
    requires i <= |s|
    decreases |s| - i
  {
    if i == |s| then []
    else
      var j := RunEnd(s, i);
      RunKept(s, i, j) + CollapseFrom(s, j)
  }

  function Collapse(s: seq<Statement>): seq<Statement>
  {
    CollapseFrom(s, 0)
  }

  /** The filtered sequence is never longer than the input. */
  lemma {:induction false} CollapseShorter(s: seq<Statement>, i: nat)
    requires i <= |s|
    ensures |CollapseFrom(s, i)| <= |s| - i
    decreases |s| - i
  {
    if i < |s| {
      CollapseShorter(s, RunEnd(s, i));
    }
  }

  /** The filtered sequence keeps input order: it is a subsequence of the input. */
  lemma {:induction false} CollapseSubseq(s: seq<Statement>, i: nat)
    requires i <= |s|
    ensures Subseq(CollapseFrom(s, i), s[i..])
    decreases |s| - i
  {
    if i < |s| {
      var j := RunEnd(s, i);
      CollapseSubseq(s, j);
      RunKeptSubseq(s[i..j], CollapseFrom(s, j), s[j..]);
      assert s[i..j] + s[j..] == s[i..];
      assert RunKept(s, i, j) == if j - i > 1 then [s[i..j][0], s[i..j][j - i - 1]] else [s[i..j][0]];
    }
  }

  /** A run's first and last element, followed by a subsequence of what follows the run. */
  lemma RunKeptSubseq<T>(run: seq<T>, c: seq<T>, rest: seq<T>)
    requires run != [] && Subseq(c, rest)
    ensures Subseq((if |run| > 1 then [run[0], run[|run| - 1]] else [run[0]]) + c, run + rest)
  {
    var n := |run|;
    if n > 1 {
      SubseqKeepEnds(run[0], run[1..n - 1], run[n - 1], c, rest);
      assert [run[0]] + run[1..n - 1] == run[..n - 1];
      assert run[..n - 1] + [run[n - 1]] == run;
    } else {
      SubseqCons(run[0], c, rest);
      assert run == [run[0]];
    }
  }

  /** No three consecutive statements of the filtered sequence share a value. */
  ghost predicate NoThreeEqual(c: seq<Statement>)
  {
    forall k :: 0 <= k && k + 2 < |c| ==> !(c[k].value == c[k + 1].value == c[k + 2].value)
  }

  lemma {:induction false} CollapseNoThreeEqual(s: seq<Statement>, i: nat)
    requires i <= |s|
    ensures NoThreeEqual(CollapseFrom(s, i))
    ensures i < |s| ==> CollapseFrom(s, i) != [] && CollapseFrom(s, i)[0] == s[i]
    decreases |s| - i
  {
    if i < |s| {
      var j := RunEnd(s, i);
      CollapseNoThreeEqual(s, j);
      RunEndMaximal(s, i);
      var r, t := RunKept(s, i, j), CollapseFrom(s, j);
      assert t != [] ==> t[0].value != s[i].value;
      var c := r + t;
      forall k | 0 <= k && k + 2 < |c|
        ensures !(c[k].value == c[k + 1].value == c[k + 2].value)
      {
        if k >= |r| {
          assert c[k] == t[k - |r|] && c[k + 1] == t[k + 1 - |r|] && c[k + 2] == t[k + 2 - |r|];
        } else if k + 1 == |r| {
          assert c[k + 1] == t[0];
        } else {
          assert c[k + 2] == t[0];
        }
      }
    }
  }

  /** The last statement of the input is always kept, as the last one. */
  lemma {:induction false} CollapseKeepsLast(s: seq<Statement>, i: nat)
    requires i < |s|
    ensures CollapseFrom(s, i) != [] && CollapseFrom(s, i)[|CollapseFrom(s, i)| - 1] == s[|s| - 1]
    decreases |s| - i
  {
    var j := RunEnd(s, i);
    if j < |s| {
      CollapseKeepsLast(s, j);
    }
  }

  /** Runs, and so their filtering, do not depend on what precedes them. */
  lemma {:induction false} RunEndShift(p: seq<Statement>, t: seq<Statement>, k: nat)
    requires k < |t|
    ensures RunEnd(p + t, |p| + k) == |p| + RunEnd(t, k)
    decreases |t| - k
  {
    var u := p + t;
    assert u[|p| + k] == t[k];
    if k + 1 < |t| {
      assert u[|p| + k + 1] == t[k + 1];
      if t[k + 1].value == t[k].value {
        RunEndShift(p, t, k + 1);
      }
    }
  }

  lemma {:induction false} CollapseShift(p: seq<Statement>, t: seq<Statement>, k: nat)
    requires k <= |t|
    ensures CollapseFrom(p + t, |p| + k) == CollapseFrom(t, k)
    decreases |t| - k
  {
    if k < |t| {
      RunEndShift(p, t, k);
      var j := RunEnd(t, k);
      CollapseShift(p, t, j);
      RunKeptShift(p, t, k, j);
      assert CollapseFrom(p + t, |p| + k) == RunKept(p + t, |p| + k, |p| + j) + CollapseFrom(p + t, |p| + j);
    }
  }

  lemma RunKeptShift(p: seq<Statement>, t: seq<Statement>, k: nat, j: nat)
    requires k < j <= |t|
    ensures RunKept(p + t, |p| + k, |p| + j) == RunKept(t, k, j)
  {
    assert (p + t)[|p| + k] == t[k];
    assert (p + t)[|p| + j - 1] == t[j - 1];
  }

  /** Filtering an already filtered sequence changes nothing. */
  lemma {:induction false} CollapseIdempotent(s: seq<Statement>, i: nat)
    requires i <= |s|
    ensures Collapse(CollapseFrom(s, i)) == CollapseFrom(s, i)
    decreases |s| - i
  {
    if i < |s| {
      var j := RunEnd(s, i);
      var r, t := RunKept(s, i, j), CollapseFrom(s, j);
      CollapseIdempotent(s, j);
      CollapseNoThreeEqual(s, j);
      RunEndMaximal(s, i);
      assert t != [] ==> t[0].value != s[i].value;
      var c := r + t;
      RunEndUnique(c, 0, |r|);
      CollapseShift(r, t, 0);
      assert CollapseFrom(c, 0) == r + CollapseFrom(c, |r|);
    }
  }

  // ---------------------------------------------------------------------
  // The block hash
  // ---------------------------------------------------------------------

  /** Hash of a window as the documented sum: w[0]*31^(n-1) + w[1]*31^(n-2) + ... + w[n-1]. */
  function SumForm(w: seq<Statement>): int
    decreases |w|
  {
    if w == [] then 0 else Code(w[0]) * Pow(PRIME_BASE, |w| - 1) + SumForm(w[1..])
  }

  /** The same polynomial in Horner form, as the incremental computation builds it. */
  function Horner(w: seq<Statement>): int
    decreases |w|
  {
    if w == [] then 0 else Horner(w[..|w| - 1]) * PRIME_BASE + Code(w[|w| - 1])
  }

  /** The 64-bit hash of a block of statements. */
  function WindowHash(w: seq<Statement>): Long
  {
    Wrap64(SumForm(w))
  }

  /** Prepending a statement adds its code times 31^|w|: what the rolling hash subtracts again. */
  lemma {:induction false} HornerCons(x: Statement, w: seq<Statement>)
    ensures Horner([x] + w) == Code(x) * Pow(PRIME_BASE, |w|) + Horner(w)
    decreases |w|
  {
    if w != [] {
      var w' := w[..|w| - 1];
      var y := w[|w| - 1];
      assert ([x] + w)[..|w|] == [x] + w';
      HornerCons(x, w');
      assert Horner([x] + w) == Horner([x] + w') * PRIME_BASE + Code(y);
      assert Pow(PRIME_BASE, |w|) == Pow(PRIME_BASE, |w'|) * PRIME_BASE;
      HornerStep(Code(x), Pow(PRIME_BASE, |w'|), Horner(w'), Code(y));
    } else {
      assert [x] + w == [x];
      assert [x][..0] == [];
    }
  }

  lemma HornerStep(c: int, p: int, h: int, d: int)
    ensures (c * p + h) * PRIME_BASE + d == c * (p * PRIME_BASE) + (h * PRIME_BASE + d)
  {
  }

  /** Horner's form and the documented sum agree on every window. */
  lemma {:induction false} HornerIsSum(w: seq<Statement>)
    ensures Horner(w) == SumForm(w)
    decreases |w|
  {
    if w != [] {
      HornerIsSum(w[1..]);
      HornerCons(w[0], w[1..]);
      assert [w[0]] + w[1..] == w;
    }
  }

  /** Windows with element-wise equal values have equal hashes, whatever their lines. */
  lemma {:induction false} WindowHashOnlyValues(w1: seq<Statement>, w2: seq<Statement>)
    requires |w1| == |w2|
    requires forall j :: 0 <= j < |w1| ==> w1[j].value == w2[j].value
    ensures WindowHash(w1) == WindowHash(w2)
  {
    SumFormOnlyValues(w1, w2);
  }

  lemma {:induction false} SumFormOnlyValues(w1: seq<Statement>, w2: seq<Statement>)
    requires |w1| == |w2|
    requires forall j :: 0 <= j < |w1| ==> w1[j].value == w2[j].value
    ensures SumForm(w1) == SumForm(w2)
    decreases |w1|
  {
    if w1 != [] {
      SumFormOnlyValues(w1[1..], w2[1..]);
    }
  }

  /** `(a mod 2^64) * 31 + c` and `a * 31 + c` agree modulo 2^64. */
  lemma WrapMulAdd(a: int, c: int)
    ensures Wrap64(Wrap64(a) * PRIME_BASE + c) == Wrap64(a * PRIME_BASE + c)
  {
    var q := a / LONG_MODULUS;
    assert a == q * LONG_MODULUS + Wrap64(a);
    assert a * PRIME_BASE + c == (Wrap64(a) * PRIME_BASE + c) + (q * PRIME_BASE) * LONG_MODULUS;
    ShiftMod(Wrap64(a) * PRIME_BASE + c, q * PRIME_BASE);
  }

  /** `a - (p mod 2^64) * c` and `a - p * c` agree modulo 2^64, whatever the wrapped `a`. */
  lemma WrapSubMul(a: int, p: int, c: int)
    ensures Wrap64(Wrap64(a) - Wrap64(p) * c) == Wrap64(a - p * c)
  {
    var qa, qp := a / LONG_MODULUS, p / LONG_MODULUS;
    assert a == qa * LONG_MODULUS + Wrap64(a);
    assert p == qp * LONG_MODULUS + Wrap64(p);
    assert p * c == Wrap64(p) * c + (qp * c) * LONG_MODULUS;
    assert a - p * c == (Wrap64(a) - Wrap64(p) * c) + (qa - qp * c) * LONG_MODULUS;
    ShiftMod(Wrap64(a) - Wrap64(p) * c, qa - qp * c);
  }

  lemma ShiftMod(x: int, k: int)
    ensures Wrap64(x + k * LONG_MODULUS) == Wrap64(x)
  {
  }

  // ---------------------------------------------------------------------
  // The chunker
  // ---------------------------------------------------------------------

  /** The block `chunk` produces at index `k` of the filtered statements `f`. */
  function ExpectedBlock(resourceId: string, f: seq<Statement>, blockSize: nat, k: nat): Block
    requires 1 <= blockSize && k + blockSize <= |f|
  {
    Block(resourceId, WindowHash(f[k..k + blockSize]), k, f[k].startLine, f[k + blockSize - 1].endLine)
  }

  /**
   * `blocks` is what `chunk` must return for the filtered statements `f`: nothing when
   * there are fewer than `blockSize` of them, otherwise one block per window start `k`.
   */
  ghost predicate Chunking(blocks: seq<Block>, resourceId: string, f: seq<Statement>, blockSize: nat)
    requires 1 <= blockSize
  {
    && (|f| < blockSize ==> blocks == [])
    && (|f| >= blockSize ==> |blocks| == |f| - blockSize + 1)
    && forall k :: 0 <= k < |blocks| ==> k + blockSize <= |f| && blocks[k] == ExpectedBlock(resourceId, f, blockSize, k)
  }

  /** Two blocks of a chunking whose windows hold element-wise equal values carry the same hash. */
  lemma ChunkingEqualWindows(blocks: seq<Block>, resourceId: string, f: seq<Statement>, blockSize: nat, k1: nat, k2: nat)
    requires 1 <= blockSize && Chunking(blocks, resourceId, f, blockSize)
    requires k1 < |blocks| && k2 < |blocks|
    requires forall i :: k1 <= i < k1 + blockSize ==> f[i].value == f[i - k1 + k2].value
    ensures blocks[k1].blockHash == blocks[k2].blockHash
  {
    var w1, w2 := f[k1..k1 + blockSize], f[k2..k2 + blockSize];
    assert forall j :: 0 <= j < |w1| ==> w1[j].value == w2[j].value by {
      forall j | 0 <= j < |w1|
        ensures w1[j].value == w2[j].value
      {
        assert w1[j] == f[k1 + j] && w2[j] == f[(k1 + j) - k1 + k2];
      }
    }
    WindowHashOnlyValues(w1, w2);
  }

  /**
   * The number of multiplications `calculatePower` performs: its loop bound
   * `blockSize - 1` is an `int`, so it wraps to 2^31-1 at the smallest `int`.
   */
  function PowerExponent(blockSize: int): (e: nat)
    requires -0x8000_0000 <= blockSize < 0x8000_0000
    ensures 1 <= blockSize ==> e == blockSize - 1
    ensures -0x8000_0000 < blockSize < 1 ==> e == 0
    ensures blockSize == -0x8000_0000 ==> e == 0x7FFF_FFFF
  {
    var bound := Wrap32(blockSize - 1);
    if bound > 0 then bound else 0
  }

  /** 31^(blockSize-1) in `long` arithmetic, with the `int` loop bound wrapped. */
  method CalculatePower(blockSize: int) returns (pow: Long)
    requires -0x8000_0000 <= blockSize < 0x8000_0000
    ensures pow == Wrap64(Pow(PRIME_BASE, PowerExponent(blockSize)))
  {
    pow := 1;
    var i := 0;
    while i < Wrap32(blockSize - 1)
      invariant 0 <= i <= PowerExponent(blockSize)
      invariant pow == Wrap64(Pow(PRIME_BASE, i))
    {
      WrapMulAdd(Pow(PRIME_BASE, i), 0);
      pow := Wrap64(pow * PRIME_BASE);
      i := i + 1;
    }
  }

  /** Keeps the first and the last statement of every run of consecutive equal values. */
  method FilterStatements(statements: seq<Statement>) returns (filtered: seq<Statement>)
    ensures filtered == Collapse(statements)
  {
    filtered := [];
    var i := 0;
    while i < |statements|
      invariant 0 <= i <= |statements|
      invariant filtered + CollapseFrom(statements, i) == Collapse(statements)
    {
      ghost var old_filtered := filtered;
      var first := statements[i];
      var j := i + 1;
      while j < |statements| && statements[j].value == first.value
        invariant i < j <= |statements|
        invariant forall k :: i <= k < j ==> statements[k].value == first.value
      {
        j := j + 1;
      }
      RunStep(statements, i, j);
      ghost var kept := RunKept(statements, i, j);
      filtered := filtered + [first];
      if i < j - 1 {
        filtered := filtered + [statements[j - 1]];
      }
      assert filtered == old_filtered + kept;
      ConcatAssoc(old_filtered, kept, CollapseFrom(statements, j));
      i := j;
    }
  }

  lemma ConcatAssoc<T>(a: seq<T>, b: seq<T>, c: seq<T>)
    ensures (a + b) + c == a + (b + c)
  {
  }

  /** One pass of the outer loop of `FilterStatements`: the run found at `i` ends at `j`. */
  lemma RunStep(statements: seq<Statement>, i: nat, j: nat)
    requires i < j <= |statements|
    requires forall k :: i <= k < j ==> statements[k].value == statements[i].value
    requires j == |statements| || statements[j].value != statements[i].value
    ensures CollapseFrom(statements, i) == RunKept(statements, i, j) + CollapseFrom(statements, j)
  {
    RunEndUnique(statements, i, j);
    assert CollapseFrom(statements, i) == RunKept(statements, i, RunEnd(statements, i)) + CollapseFrom(statements, RunEnd(statements, i));
  }

  /** The Horner hash of the first `blockSize - 1` statements. */
  method InitializeHash(statementsArr: seq<Statement>, blockSize: int) returns (hash: Long)
    requires 1 <= blockSize <= |statementsArr| + 1
    ensures hash == Wrap64(Horner(statementsArr[..blockSize - 1]))
  {
    hash := 0;
    var i := 0;
    while i < blockSize - 1
      invariant 0 <= i <= blockSize - 1
      invariant hash == Wrap64(Horner(statementsArr[..i]))
    {
      assert statementsArr[..i + 1][..i] == statementsArr[..i];
      WrapMulAdd(Horner(statementsArr[..i]), Code(statementsArr[i]));
      hash := Wrap64(hash * PRIME_BASE + Code(statementsArr[i]));
      i := i + 1;
    }
  }

  /** Appends the new last statement to the hash. */
  function UpdateHash(hash: Long, lastStatement: Statement): Long
  {
    Wrap64(hash * PRIME_BASE + Code(lastStatement))
  }

  function CreateBlock(resourceId: string, hash: Long, index: int, firstStatement: Statement, lastStatement: Statement): Block
  {
    Block(resourceId, hash, index, firstStatement.startLine, lastStatement.endLine)
  }

  /** Appending the window's new last statement turns the hash of `f[first..last]` into the block hash. */
  lemma RollIn(f: seq<Statement>, first: nat, last: nat, hash: Long)
    requires first <= last < |f|
    requires hash == Wrap64(Horner(f[first..last]))
    ensures UpdateHash(hash, f[last]) == Wrap64(Horner(f[first..last + 1]))
    ensures UpdateHash(hash, f[last]) == WindowHash(f[first..last + 1])
  {
    var w := f[first..last + 1];
    assert w[..|w| - 1] == f[first..last];
    WrapMulAdd(Horner(f[first..last]), Code(f[last]));
    HornerIsSum(w);
  }

  /** Removing the first statement's contribution leaves the hash of the rest of the window. */
  lemma RollOut(f: seq<Statement>, first: nat, last: nat, hash: Long, power: Long)
    requires first <= last < |f|
    requires hash == Wrap64(Horner(f[first..last + 1]))
    requires power == Wrap64(Pow(PRIME_BASE, last - first))
    ensures Wrap64(hash - power * Code(f[first])) == Wrap64(Horner(f[first + 1..last + 1]))
  {
    var w, rest := f[first..last + 1], f[first + 1..last + 1];
    assert w == [f[first]] + rest;
    HornerCons(f[first], rest);
    DropLeading(Horner(w), Pow(PRIME_BASE, last - first), Code(f[first]), Horner(rest));
  }

  lemma DropLeading(h: int, p: int, c: int, r: int)
    requires h == c * p + r
    ensures Wrap64(Wrap64(h) - Wrap64(p) * c) == Wrap64(r)
  {
    WrapSubMul(h, p, c);
    assert h - p * c == r;
  }

  /** `hash` is the `long` hash of the `blockSize - 1` statements starting at `first`. */
  ghost predicate PartialWindowHash(f: seq<Statement>, first: nat, blockSize: nat, hash: Long)
    requires 1 <= blockSize && first + blockSize <= |f| + 1
  {
    hash == Wrap64(Horner(f[first..first + blockSize - 1]))
  }

  /** Every block found so far is the block of its window. */
  ghost predicate BlocksSoFar(blocks: seq<Block>, resourceId: string, f: seq<Statement>, blockSize: nat)
    requires 1 <= blockSize && |blocks| + blockSize <= |f| + 1
  {
    forall k :: 0 <= k < |blocks| ==> blocks[k] == ExpectedBlock(resourceId, f, blockSize, k)
  }

  /** Once every window has its block, the blocks are the chunking of `f`. */
  lemma ChunkingDone(blocks: seq<Block>, resourceId: string, f: seq<Statement>, blockSize: nat)
    requires 1 <= blockSize <= |f| && |blocks| == |f| - blockSize + 1
    requires BlocksSoFar(blocks, resourceId, f, blockSize)
    ensures Chunking(blocks, resourceId, f, blockSize)
  {
  }

  /** Adding the next statement, then removing the first, moves the partial hash one window on. */
  lemma SlideHash(f: seq<Statement>, first: nat, blockSize: nat, power: Long, hash: Long, hash': Long)
    requires 1 <= blockSize && first + blockSize <= |f|
    requires power == Wrap64(Pow(PRIME_BASE, blockSize - 1))
    requires PartialWindowHash(f, first, blockSize, hash)
    requires hash' == Wrap64(UpdateHash(hash, f[first + blockSize - 1]) - power * Code(f[first]))
    ensures PartialWindowHash(f, first + 1, blockSize, hash')
  {
    var last := first + blockSize - 1;
    RollIn(f, first, last, hash);
    RollOut(f, first, last, UpdateHash(hash, f[last]), power);
  }

  /** The block built from the rolled-in hash is the block of the next window. */
  lemma SlideBlocks(resourceId: string, f: seq<Statement>, blockSize: nat, blocks: seq<Block>, hash: Long, blocks': seq<Block>)
    requires 1 <= blockSize && |blocks| + blockSize <= |f|
    requires PartialWindowHash(f, |blocks|, blockSize, hash)
    requires BlocksSoFar(blocks, resourceId, f, blockSize)
    requires var first, last := |blocks|, |blocks| + blockSize - 1;
      blocks' == blocks + [CreateBlock(resourceId, UpdateHash(hash, f[last]), first, f[first], f[last])]
    ensures |blocks'| == |blocks| + 1
    ensures BlocksSoFar(blocks', resourceId, f, blockSize)
  {
    var first, last := |blocks|, |blocks| + blockSize - 1;
    RollIn(f, first, last, hash);
    AppendBlock(blocks, blocks'[first], resourceId, f, blockSize);
  }

  /** The blocks found so far, extended by the block of the next window. */
  lemma AppendBlock(blocks: seq<Block>, block: Block, resourceId: string, f: seq<Statement>, blockSize: nat)
    requires 1 <= blockSize && |blocks| + blockSize <= |f|
    requires forall k :: 0 <= k < |blocks| ==> blocks[k] == ExpectedBlock(resourceId, f, blockSize, k)
    requires block == ExpectedBlock(resourceId, f, blockSize, |blocks|)
    ensures forall k :: 0 <= k < |blocks| + 1 ==> (blocks + [block])[k] == ExpectedBlock(resourceId, f, blockSize, k)
  {
  }

  class BlockChunker {
    const blockSize: int
    const power: Long

    /** `blockSize` is an `int`, and `power` is 31^(blockSize-1), wrapped as the source computes it. */
    ghost predicate Valid()
    {
      && -0x8000_0000 <= blockSize < 0x8000_0000
      && power == Wrap64(Pow(PRIME_BASE, PowerExponent(blockSize)))
    }

    constructor (blockSize: int)
      requires -0x8000_0000 <= blockSize < 0x8000_0000
      ensures this.blockSize == blockSize && Valid()
    {
      this.blockSize := blockSize;
      var p := CalculatePower(blockSize);
      this.power := p;
    }

    /** Takes the contribution of the window's first statement out of the hash. */
    function RemoveFirstStatementFromHash(hash: Long, firstStatement: Statement): Long
    {
      Wrap64(hash - power * Code(firstStatement))
    }

    /**
     * Blocks of `blockSize` consecutive filtered statements, one per start index, each
     * hashed with the documented polynomial. `blockSize` must be positive: the source
     * throws otherwise.
     */
    method Chunk(resourceId: string, statements: seq<Statement>) returns (blocks: seq<Block>)
      requires Valid() && blockSize >= 1
      ensures Chunking(blocks, resourceId, Collapse(statements), blockSize)
    {
      var statementsArr := FilterStatements(statements);
      if |statementsArr| < blockSize {
        return [];
      }
      blocks := ChunkWindows(resourceId, statementsArr);
    }

    /** The sliding-window loop of `chunk`, over at least `blockSize` filtered statements. */
    method ChunkWindows(resourceId: string, statementsArr: seq<Statement>) returns (blocks: seq<Block>)
      requires Valid() && 1 <= blockSize <= |statementsArr|
      ensures Chunking(blocks, resourceId, statementsArr, blockSize)
    {
      blocks := [];
      var hash := InitializeHash(statementsArr, blockSize);
      var last, first := blockSize - 1, 0;
      assert PartialWindowHash(statementsArr, 0, blockSize, hash) by {
        assert statementsArr[0..blockSize - 1] == statementsArr[..blockSize - 1];
      }
      while last < |statementsArr|
        invariant 0 <= first && last == first + blockSize - 1 && last <= |statementsArr|
        invariant |blocks| == first
        invariant PartialWindowHash(statementsArr, first, blockSize, hash)
        invariant BlocksSoFar(blocks, resourceId, statementsArr, blockSize)
      {
        var firstStatement := statementsArr[first];
        var lastStatement := statementsArr[last];

        ghost var previousBlocks, previousHash := blocks, hash;
        hash := UpdateHash(hash, lastStatement);
        var block := CreateBlock(resourceId, hash, first, firstStatement, lastStatement);
        blocks := blocks + [block];
        hash := RemoveFirstStatementFromHash(hash, firstStatement);
        SlideBlocks(resourceId, statementsArr, blockSize, previousBlocks, previousHash, blocks);
        SlideHash(statementsArr, first, blockSize, power, previousHash, hash);
        last, first := last + 1, first + 1;
      }
      ChunkingDone(blocks, resourceId, statementsArr, blockSize);
    }
  }
}
