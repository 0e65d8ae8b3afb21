/**
 The 64-bit list hash that is sent to the server to ask "has this list changed?".

 One step xors a word with three shifts of itself and adds the value.  Xoring with a shift is
 undone by xoring with the doubled shifts until nothing is left (`FoldTwice`), so a step is a
 bijection, and so is the hash of a list in every single position (`OnePosition`).
 */
module ApiHash {
  const TWO64: nat := 0x1_0000_0000_0000_0000

  /** `uint64`. */
  type Word = n: nat | n < TWO64

  // ---- Bits of natural numbers. ----

  function Xor(a: nat, b: nat): nat {
    if a == 0 && b == 0 then 0
    else (if a % 2 == b % 2 then 0 else 1) + 2 * Xor(a / 2, b / 2)
  }

  lemma XorZero(a: nat)
    ensures Xor(a, 0) == a
  {}

  lemma XorCommutes(a: nat, b: nat)
    ensures Xor(a, b) == Xor(b, a)
  {}

  lemma {:induction false} XorAssociates(a: nat, b: nat, c: nat)
    ensures Xor(Xor(a, b), c) == Xor(a, Xor(b, c))
    decreases a + b + c
  {
    if a + b + c > 0 {
      XorAssociates(a / 2, b / 2, c / 2);
    }
  }

  lemma XorCancels(a: nat, b: nat, c: nat)
    ensures Xor(Xor(a, b), Xor(b, c)) == Xor(a, c)
  {}

  lemma XorSwaps(a: nat, b: nat, c: nat, d: nat)
    ensures Xor(Xor(a, b), Xor(c, d)) == Xor(Xor(a, c), Xor(b, d))
  {
    XorAssociates(Xor(a, b), c, d);
    XorAssociates(a, b, c);
    XorCommutes(b, c);
    XorAssociates(a, c, b);
    XorAssociates(Xor(a, c), b, d);
  }

  function Pow2(n: nat): (p: nat)
    ensures p > 0
  {
    if n == 0 then 1 else 2 * Pow2(n - 1)
  }

  lemma {:induction false} XorBound(a: nat, b: nat, n: nat)
    requires a < Pow2(n) && b < Pow2(n)
    ensures Xor(a, b) < Pow2(n)
  {
    if n > 0 {
      XorBound(a / 2, b / 2, n - 1);
    }
  }

  lemma Pow64()
    ensures Pow2(64) == TWO64
  {
    assert Pow2(8) == 0x100;
    assert Pow2(16) == 0x1_0000;
    assert Pow2(24) == 0x100_0000;
    assert Pow2(32) == 0x1_0000_0000;
    assert Pow2(40) == 0x100_0000_0000;
    assert Pow2(48) == 0x1_0000_0000_0000;
    assert Pow2(56) == 0x100_0000_0000_0000;
  }

  function XorWords(a: Word, b: Word): Word {
    Pow64();
    XorBound(a, b, 64);
    Xor(a, b)
  }

  /** `x >> k`: k halvings. */
  function Shr(x: nat, k: nat): (y: nat)
    ensures y <= x
    decreases k
  {
    if k == 0 then x else Shr(x / 2, k - 1)
  }

  /** `x << 1` in 64 bits. */
  function Double(x: Word): Word { (2 * x) % TWO64 }

  /** `x << k` in 64 bits: k truncated doublings. */
  function Shl(x: Word, k: nat): Word
    decreases k
  {
    if k == 0 then x else Shl(Double(x), k - 1)
  }

  lemma {:induction false} ShrIsDivision(x: nat, k: nat)
    ensures Shr(x, k) == x / Pow2(k)
    decreases k
  {
    if k > 0 {
      ShrIsDivision(x / 2, k - 1);
      HalfThenDivide(x, Pow2(k - 1));
    }
  }

  lemma DivideUnique(a: nat, m: nat, q: nat, r: nat)
    requires a == q * m + r && r < m
    ensures a / m == q
  {
    var d := a / m - q;
    assert d * m == r - a % m;
  }

  lemma HalfThenDivide(x: nat, c: nat)
    requires c > 0
    ensures (x / 2) / c == x / (2 * c)
  {
    var h := x / 2;
    DivideUnique(x, 2 * c, h / c, x % 2 + 2 * (h % c));
  }

  lemma {:induction false} ShlIsProduct(x: Word, k: nat)
    ensures Shl(x, k) == (x * Pow2(k)) % TWO64
    decreases k
  {
    if k > 0 {
      ShlIsProduct(Double(x), k - 1);
      DoubleThenMultiply(x, Pow2(k - 1), TWO64);
    }
  }

  lemma DoubleThenMultiply(x: nat, c: nat, m: nat)
    requires m > 0
    ensures (((2 * x) % m) * c) % m == (x * (2 * c)) % m
  {
    MulMod(2 * x, c, m);
    assert 2 * x * c == x * (2 * c);
  }

  lemma MulMod(a: nat, c: nat, m: nat)
    requires m > 0
    ensures ((a % m) * c) % m == (a * c) % m
  {
    assert a == (a / m) * m + a % m;
    MulModParts(a / m, a % m, c, m);
  }

  lemma MulModParts(q: nat, r: nat, c: nat, m: nat)
    requires m > 0
    ensures (r * c) % m == ((q * m + r) * c) % m
  {
    Distribute(q, m, r, c);
    AddMultiple(q * c, m, r * c);
  }

  lemma Distribute(q: nat, m: nat, r: nat, c: nat)
    ensures (q * m + r) * c == (q * c) * m + r * c
  {}

  lemma AddMultiple(k: nat, m: nat, t: nat)
    requires m > 0
    ensures (k * m + t) % m == t % m
  {
    assert k * m + t == (k + t / m) * m + t % m;
    ModUnique(k * m + t, m, k + t / m, t % m);
  }

  // ---- Shifts distribute over exclusive or, add up, and end in zero. ----

  lemma {:induction false} ShrXor(a: nat, b: nat, k: nat)
    ensures Shr(Xor(a, b), k) == Xor(Shr(a, k), Shr(b, k))
    decreases k
  {
    if k > 0 {
      ShrXor(a / 2, b / 2, k - 1);
    }
  }

  lemma {:induction false} ShrShr(x: nat, j: nat, k: nat)
    ensures Shr(Shr(x, j), k) == Shr(x, j + k)
    decreases j
  {
    if j > 0 {
      ShrShr(x / 2, j - 1, k);
    }
  }

  lemma {:induction false} ShrAll(x: nat, k: nat)
    requires x < Pow2(k)
    ensures Shr(x, k) == 0
    decreases k
  {
    if k > 0 {
      ShrAll(x / 2, k - 1);
    }
  }

  lemma {:induction false} ShrZero(k: nat)
    ensures Shr(0, k) == 0
    decreases k
  {}

  lemma ModUnique(a: nat, m: nat, q: nat, r: nat)
    requires a == q * m + r && r < m
    ensures a % m == r
  {
    var d := a / m - q;
    assert d * m == r - a % m;
  }

  lemma ModStep(a: nat, c: nat)
    requires c > 0
    ensures a % (2 * c) == a % 2 + 2 * ((a / 2) % c)
  {
    ModUnique(a, 2 * c, (a / 2) / c, a % 2 + 2 * ((a / 2) % c));
  }

  lemma XorHalves(a: nat, b: nat)
    ensures Xor(a, b) == (if a % 2 == b % 2 then 0 else 1) + 2 * Xor(a / 2, b / 2)
  {}

  lemma XorBuild(a: nat, b: nat, u: nat, v: nat)
    ensures Xor(a % 2 + 2 * u, b % 2 + 2 * v) == Xor(a, b) % 2 + 2 * Xor(u, v)
  {
    hide Xor;
    XorHalves(a, b);
    XorHalves(a % 2 + 2 * u, b % 2 + 2 * v);
  }

  lemma {:induction false} XorMod(a: nat, b: nat, n: nat)
    ensures Xor(a, b) % Pow2(n) == Xor(a % Pow2(n), b % Pow2(n))
    decreases n
  {
    if n > 0 {
      var c := Pow2(n - 1);
      XorMod(a / 2, b / 2, n - 1);
      hide Xor;
      XorHalves(a, b);
      XorModStep(a, b, c);
    }
  }

  lemma XorModStep(a: nat, b: nat, c: nat)
    requires c > 0 && Xor(a, b) / 2 == Xor(a / 2, b / 2)
    requires Xor(a / 2, b / 2) % c == Xor((a / 2) % c, (b / 2) % c)
    ensures Xor(a, b) % (2 * c) == Xor(a % (2 * c), b % (2 * c))
  {
    hide Xor;
    ModStep(a, c);
    ModStep(b, c);
    ModStep(Xor(a, b), c);
    XorBuild(a, b, (a / 2) % c, (b / 2) % c);
  }

  lemma DoubleXor(a: Word, b: Word)
    ensures Double(XorWords(a, b)) == XorWords(Double(a), Double(b))
  {
    Pow64();
    XorMod(2 * a, 2 * b, 64);
    XorDouble(a, b);
    hide Xor, Pow2;
  }

  lemma XorDouble(a: nat, b: nat)
    ensures Xor(2 * a, 2 * b) == 2 * Xor(a, b)
  {
    XorHalves(2 * a, 2 * b);
    hide Xor;
  }

  lemma {:induction false} ShlXor(a: Word, b: Word, k: nat)
    ensures Shl(XorWords(a, b), k) == XorWords(Shl(a, k), Shl(b, k))
    decreases k
  {
    if k > 0 {
      DoubleXor(a, b);
      ShlXor(Double(a), Double(b), k - 1);
    }
  }

  lemma {:induction false} ShlShl(x: Word, j: nat, k: nat)
    ensures Shl(Shl(x, j), k) == Shl(x, j + k)
    decreases j
  {
    if j > 0 {
      ShlShl(Double(x), j - 1, k);
    }
  }

  /** After j truncated doublings a word is a multiple of 2^j, so after 64 it is zero. */
  lemma {:induction false} ShlAll(x: Word, j: nat, k: nat)
    requires j + k >= 64 && j <= 64 && x % Pow2(j) == 0
    ensures Shl(x, k) == 0
    decreases k
  {
    Pow64();
    if k > 0 {
      if j < 64 {
        DoubleMultiple(x, j);
        ShlAll(Double(x), j + 1, k - 1);
      } else {
        assert x == 0;
        ShlAll(0, 64, k - 1);
      }
    }
  }

  lemma DoubleMultiple(x: Word, j: nat)
    requires j < 64 && x % Pow2(j) == 0
    ensures Double(x) % Pow2(j + 1) == 0
  {
    hide Pow2;
    var c, y := Pow2(j), x / Pow2(j);
    PowStep(j);
    PowDivides(j + 1, 64);
    Pow64();
    var m := TWO64 / (2 * c);
    assert x == c * y && 2 * x == (2 * c) * y && TWO64 == (2 * c) * m;
    ModMultiple(2 * c, y, m);
    ModUnique((2 * c) * (y % m), 2 * c, y % m, 0);
  }

  lemma PowStep(j: nat)
    ensures Pow2(j + 1) == 2 * Pow2(j)
  {}

  lemma ModMultiple(c: nat, y: nat, m: nat)
    requires c > 0 && m > 0
    ensures c * m > 0
    ensures (c * y) % (c * m) == c * (y % m)
  {
    var q, r := y / m, y % m;
    assert c * y == q * (c * m) + c * r by {
      assert y == q * m + r;
    }
    assert c * r < c * m;
    ModUnique(c * y, c * m, q, c * r);
  }

  lemma {:induction false} PowDivides(j: nat, n: nat)
    requires j <= n
    ensures Pow2(n) % Pow2(j) == 0
    decreases n
  {
    if j < n {
      PowDivides(j, n - 1);
      var q := Pow2(n - 1) / Pow2(j);
      ModUnique(Pow2(n), Pow2(j), 2 * q, 0);
    } else {
      ModUnique(Pow2(n), Pow2(j), 1, 0);
    }
  }

  // ---- Xoring a word with its shift. ----

  /** `x ^ (x >> k)`. */
  function FoldR(x: Word, k: nat): Word { XorWords(x, Shr(x, k)) }

  /** `x ^ (x << k)`. */
  function FoldL(x: Word, k: nat): Word { XorWords(x, Shl(x, k)) }

  lemma FoldTwice(x: Word, k: nat)
    ensures FoldR(FoldR(x, k), k) == FoldR(x, 2 * k)
    ensures FoldL(FoldL(x, k), k) == FoldL(x, 2 * k)
  {
    ShrXor(x, Shr(x, k), k);
    ShrShr(x, k, k);
    XorCancels(x, Shr(x, k), Shr(x, 2 * k));
    ShlXor(x, Shl(x, k), k);
    ShlShl(x, k, k);
    XorCancels(x, Shl(x, k), Shl(x, 2 * k));
  }

  lemma FoldsCommute(x: Word, j: nat, k: nat)
    ensures FoldR(FoldR(x, j), k) == FoldR(FoldR(x, k), j)
  {
    ShrXor(x, Shr(x, j), k);
    ShrXor(x, Shr(x, k), j);
    ShrShr(x, j, k);
    ShrShr(x, k, j);
    XorSwaps(x, Shr(x, j), Shr(x, k), Shr(x, j + k));
  }

  lemma FoldNothing(x: Word, k: nat)
    requires k >= 64
    ensures FoldR(x, k) == x && FoldL(x, k) == x
  {
    Pow64();
    ShrShr(x, 64, k - 64);
    ShrAll(x, 64);
    ShrZero(k - 64);
    ShlAll(x, 0, k);
    XorZero(x);
  }

  function UndoRight21(y: Word): Word { FoldR(FoldR(y, 21), 42) }

  function UndoRight4(y: Word): Word { FoldR(FoldR(FoldR(FoldR(y, 4), 8), 16), 32) }

  lemma Right21(x: Word)
    ensures UndoRight21(FoldR(x, 21)) == x && FoldR(UndoRight21(x), 21) == x
  {
    FoldTwice(x, 21);
    FoldTwice(x, 42);
    FoldNothing(x, 84);
    FoldsCommute(FoldR(x, 21), 42, 21);
  }

  lemma Right4(x: Word)
    ensures UndoRight4(FoldR(x, 4)) == x && FoldR(UndoRight4(x), 4) == x
  {
    hide FoldR;
    FoldTwice(x, 4);
    FoldTwice(x, 8);
    FoldTwice(x, 16);
    FoldTwice(x, 32);
    FoldNothing(x, 64);
    FoldsCommute(FoldR(FoldR(FoldR(x, 4), 8), 16), 32, 4);
    FoldsCommute(FoldR(FoldR(x, 4), 8), 16, 4);
    FoldsCommute(FoldR(x, 4), 8, 4);
  }

  lemma Left35(x: Word)
    ensures FoldL(FoldL(x, 35), 35) == x
  {
    FoldTwice(x, 35);
    FoldNothing(x, 70);
  }

  // ---- HashUpdate ----

  function Mixed(already: Word): Word { FoldR(FoldL(FoldR(already, 21), 35), 4) }

  function Updated(already: Word, value: Word): Word { (Mixed(already) + value) % TWO64 }

  /** The state before a step, from the state after it. */
  function Before(after: Word, value: Word): Word {
    UndoRight21(FoldL(UndoRight4((after - value) % TWO64), 35))
  }

  /** The value added by a step, from the states around it. */
  function ValueBetween(before: Word, after: Word): Word {
    (after - Mixed(before)) % TWO64
  }

  method HashUpdate(already: Word, value: Word) returns (result: Word)
    ensures result == Updated(already, value)
  {
    hide XorWords, Shr, Shl;
    result := already;
    result := XorWords(result, Shr(result, 21));
    result := XorWords(result, Shl(result, 35));
    result := XorWords(result, Shr(result, 4));
    result := (result + value) % TWO64;
  }

  /** For every value, a step is a bijection of the state. */
  lemma StateBijection(before: Word, after: Word, value: Word)
    ensures Updated(before, value) == after <==> before == Before(after, value)
  {
    hide FoldR, FoldL, UndoRight21, UndoRight4;
    Right21(before);
    Left35(FoldR(before, 21));
    Right4(FoldL(FoldR(before, 21), 35));
    var z: Word := (after - value) % TWO64;
    Right4(z);
    Left35(UndoRight4(z));
    Right21(FoldL(UndoRight4(z), 35));
  }

  /** For every state, a step is a bijection of the value. */
  lemma ValueBijection(before: Word, after: Word, value: Word)
    ensures Updated(before, value) == after <==> value == ValueBetween(before, after)
  {
    hide Mixed;
  }

  // ---- CountHash: the hash of a list. ----

  /** The state after the values of a list. */
  function HashFrom(already: Word, values: seq<Word>): Word {
    if values == [] then already
    else Updated(HashFrom(already, values[..|values| - 1]), values[|values| - 1])
  }

  /** The state before a list, from the state after it. */
  function BeforeList(after: Word, values: seq<Word>): Word
    decreases |values|
  {
    if values == [] then after
    else BeforeList(Before(after, values[|values| - 1]), values[..|values| - 1])
  }

  method CountHash(range: seq<Word>) returns (result: Word)
    ensures result == HashFrom(0, range)
  {
    result := 0;
    for i := 0 to |range|
      invariant result == HashFrom(0, range[..i])
    {
      assert range[..i + 1][..i] == range[..i];
      result := HashUpdate(result, range[i]);
    }
    assert range[..|range|] == range;
  }

  lemma {:induction false} HashConcat(already: Word, a: seq<Word>, b: seq<Word>)
    ensures HashFrom(already, a + b) == HashFrom(HashFrom(already, a), b)
  {
    hide Updated;
    if b == [] {
      assert a + b == a;
    } else {
      var n := |b| - 1;
      assert (a + b)[..|a| + n] == a + b[..n];
      HashConcat(already, a, b[..n]);
    }
  }

  lemma {:induction false} ListBijection(before: Word, after: Word, values: seq<Word>)
    ensures HashFrom(before, values) == after <==> before == BeforeList(after, values)
    decreases |values|
  {
    hide Updated, Before;
    if values != [] {
      var n := |values| - 1;
      ListBijection(before, Before(after, values[n]), values[..n]);
      StateBijection(HashFrom(before, values[..n]), after, values[n]);
    }
  }

  /** The one value between a prefix and a suffix that gives the list the hash `target`. */
  function Solution(prefix: seq<Word>, suffix: seq<Word>, target: Word): Word {
    ValueBetween(HashFrom(0, prefix), BeforeList(target, suffix))
  }

  /** With the rest of a list fixed, its hash is a bijection of the value in any one position. */
  lemma OnePosition(prefix: seq<Word>, x: Word, suffix: seq<Word>, target: Word)
    ensures HashFrom(0, prefix + [x] + suffix) == target <==> x == Solution(prefix, suffix, target)
  {
    hide Updated, ValueBetween;
    HashConcat(0, prefix + [x], suffix);
    ListBijection(HashFrom(0, prefix + [x]), target, suffix);
    assert (prefix + [x])[..|prefix|] == prefix;
    ValueBijection(HashFrom(0, prefix), BeforeList(target, suffix), x);
  }

  /** Two lists of one length that differ in exactly one position have different hashes. */
  lemma OneChangeChangesHash(a: seq<Word>, b: seq<Word>, i: nat)
    requires |a| == |b| && i < |a| && a[i] != b[i]
    requires forall j | 0 <= j < |a| && j != i :: a[j] == b[j]
    ensures HashFrom(0, a) != HashFrom(0, b)
  {
    var p, s, h := a[..i], a[i + 1..], HashFrom(0, a);
    assert a == p + [a[i]] + s && b == p + [b[i]] + s;
    OnePosition(p, a[i], s, h);
    OnePosition(p, b[i], s, h);
  }

  /** The value in position j that hides a change of position i. */
  function Hiding(a: seq<Word>, i: nat, x: Word, j: nat): Word
    requires i < |a| && j < |a|
  {
    Solution(a[i := x][..j], a[i := x][j + 1..], HashFrom(0, a))
  }

  /** One change is the limit: exactly one change of a second position hides the first change. */
  lemma SecondChangeCanHide(a: seq<Word>, i: nat, x: Word, j: nat, y: Word)
    requires i < |a| && j < |a| && i != j && x != a[i]
    ensures HashFrom(0, a[i := x][j := y]) == HashFrom(0, a) <==> y == Hiding(a, i, x, j)
    ensures Hiding(a, i, x, j) != a[j]
  {
    hide HashFrom, Solution;
    var c := a[i := x];
    assert c[j := y] == c[..j] + [y] + c[j + 1..] && c == c[..j] + [a[j]] + c[j + 1..];
    OnePosition(c[..j], y, c[j + 1..], HashFrom(0, a));
    OnePosition(c[..j], a[j], c[j + 1..], HashFrom(0, a));
    OneChangeChangesHash(a, c, i);
  }

  /** A list and the same list after a zero have one hash, so the length is not covered. */
  lemma LeadingZero(values: seq<Word>)
    ensures HashFrom(0, [0] + values) == HashFrom(0, values)
  {
    HashConcat(0, [0], values);
    MixedZero();
    assert [0][..0] == [];
  }

  lemma MixedZero()
    ensures Mixed(0) == 0
  {
    ShrZero(21);
    ShrZero(4);
    Pow64();
    ShlAll(0, 64, 35);
  }

  // ---- The lists that are hashed. ----

  datatype StickersSet = StickersSet(id: Word, hash: Word, special: bool, archived: bool, unread: bool)

  const DEFAULT_SET_ID: Word := 0

  datatype Document = Document(id: Word, access: Word)

  function IdsOf(vector: seq<Document>): (ids: seq<Word>)
    ensures |ids| == |vector| && forall i | 0 <= i < |ids| :: ids[i] == vector[i].id
  {
    seq(|vector|, i requires 0 <= i < |vector| => vector[i].id)
  }

  /** The hash of the documents is that of their ids. */
  method CountDocumentVectorHash(vector: seq<Document>) returns (result: Word)
    ensures result == HashFrom(0, IdsOf(vector))
  {
    result := 0;
    for i := 0 to |vector|
      invariant result == HashFrom(0, IdsOf(vector)[..i])
    {
      assert IdsOf(vector)[..i + 1][..i] == IdsOf(vector)[..i];
      result := HashUpdate(result, vector[i].id);
    }
    assert IdsOf(vector)[..|vector|] == IdsOf(vector);
  }

  /** The hashes that one entry of the order contributes. */
  function OrderHashes(sets: map<Word, StickersSet>, id: Word): seq<Word> {
    if id in sets && sets[id].id != DEFAULT_SET_ID && !sets[id].special && !sets[id].archived
    then [sets[id].hash]
    else []
  }

  function OrderValues(sets: map<Word, StickersSet>, order: seq<Word>): seq<Word> {
    if order == [] then []
    else OrderValues(sets, order[..|order| - 1]) + OrderHashes(sets, order[|order| - 1])
  }

  predicate HasDefault(sets: map<Word, StickersSet>, order: seq<Word>) {
    exists id | id in order :: id in sets && sets[id].id == DEFAULT_SET_ID
  }

  /** The outdated default set, when asked about, forces the hash 0. */
  method CountStickersOrderHash(sets: map<Word, StickersSet>, order: seq<Word>, checkOutdatedInfo: bool)
      returns (result: Word)
    ensures result ==
            if checkOutdatedInfo && HasDefault(sets, order) then 0
            else HashFrom(0, OrderValues(sets, order))
  {
    hide HashFrom, Updated, HasDefault;
    var already: Word, foundOutdated := 0, false;
    HashNothing();
    NoDefault(sets);
    for i := 0 to |order|
      invariant already == HashFrom(0, OrderValues(sets, order[..i]))
      invariant foundOutdated <==> HasDefault(sets, order[..i])
    {
      ghost var before := OrderValues(sets, order[..i]);
      assert order[..i + 1] == order[..i] + [order[i]] && order[..i + 1][..i] == order[..i];
      HasDefaultStep(sets, order[..i], order[i]);
      if order[i] in sets {
        var stickersSet := sets[order[i]];
        if stickersSet.id == DEFAULT_SET_ID {
          foundOutdated := true;
        } else if !stickersSet.special && !stickersSet.archived {
          HashConcat(0, before, [stickersSet.hash]);
          HashOne(already, stickersSet.hash);
          already := HashUpdate(already, stickersSet.hash);
        }
      }
      assert before + [] == before;
    }
    assert order[..|order|] == order;
    result := if !checkOutdatedInfo || !foundOutdated then already else 0;
  }

  lemma HasDefaultStep(sets: map<Word, StickersSet>, order: seq<Word>, id: Word)
    ensures HasDefault(sets, order + [id]) <==>
            HasDefault(sets, order) || (id in sets && sets[id].id == DEFAULT_SET_ID)
  {}

  lemma NoDefault(sets: map<Word, StickersSet>)
    ensures !HasDefault(sets, [])
  {}

  lemma HashNothing()
    ensures HashFrom(0, []) == 0
  {}

  lemma HashOne(already: Word, value: Word)
    ensures HashFrom(already, [value]) == Updated(already, value)
  {}

  /** A featured set is followed by 1 when it is unread. */
  function FeaturedOne(sets: map<Word, StickersSet>, id: Word): seq<Word> {
    if id in sets && sets[id].unread then [id, 1] else [id]
  }

  function FeaturedValues(sets: map<Word, StickersSet>, order: seq<Word>): seq<Word> {
    if order == [] then []
    else FeaturedValues(sets, order[..|order| - 1]) + FeaturedOne(sets, order[|order| - 1])
  }

  method CountFeaturedHash(sets: map<Word, StickersSet>, order: seq<Word>) returns (result: Word)
    ensures result == HashFrom(0, FeaturedValues(sets, order))
  {
    hide Updated;
    result := 0;
    for i := 0 to |order|
      invariant result == HashFrom(0, FeaturedValues(sets, order[..i]))
    {
      var setId := order[i];
      ghost var before := FeaturedValues(sets, order[..i]);
      assert order[..i + 1][..i] == order[..i];
      HashConcat(0, before, [setId]);
      HashOne(result, setId);
      result := HashUpdate(result, setId);
      if setId in sets && sets[setId].unread {
        HashConcat(0, before + [setId], [1]);
        HashOne(result, 1);
        result := HashUpdate(result, 1);
        assert before + [setId] + [1] == before + [setId, 1];
      }
    }
    assert order[..|order|] == order;
  }

  lemma {:induction false} OrderValuesConcat(sets: map<Word, StickersSet>, a: seq<Word>, b: seq<Word>)
    ensures OrderValues(sets, a + b) == OrderValues(sets, a) + OrderValues(sets, b)
  {
    hide OrderHashes;
    if b == [] {
      assert a + b == a;
    } else {
      var n := |b| - 1;
      assert (a + b)[..|a| + n] == a + b[..n];
      OrderValuesConcat(sets, a, b[..n]);
    }
  }

  lemma {:induction false} OrderValuesAgree(sets: map<Word, StickersSet>, now: map<Word, StickersSet>, order: seq<Word>)
    requires forall id | id in order :: OrderHashes(sets, id) == OrderHashes(now, id)
    ensures OrderValues(sets, order) == OrderValues(now, order)
  {
    hide OrderHashes;
    if order != [] {
      OrderValuesAgree(sets, now, order[..|order| - 1]);
    }
  }

  lemma OrderValuesSplit(sets: map<Word, StickersSet>, a: seq<Word>, id: Word, b: seq<Word>)
    ensures OrderValues(sets, a + [id] + b) == OrderValues(sets, a) + OrderHashes(sets, id) + OrderValues(sets, b)
  {
    hide OrderHashes;
    OrderValuesConcat(sets, a + [id], b);
    assert (a + [id])[..|a|] == a;
  }

  /**
   A new hash of one set changes the hash of the order it stands in once exactly if the set is neither
   the default one nor special nor archived.
   */
  lemma ChangedSetChangesOrderHash(sets: map<Word, StickersSet>, a: seq<Word>, id: Word, b: seq<Word>, hash: Word)
    requires id !in a && id !in b && id in sets && hash != sets[id].hash
    ensures HashFrom(0, OrderValues(sets[id := sets[id].(hash := hash)], a + [id] + b)) !=
            HashFrom(0, OrderValues(sets, a + [id] + b)) <==>
            sets[id].id != DEFAULT_SET_ID && !sets[id].special && !sets[id].archived
  {
    hide HashFrom, OrderValues;
    var now := sets[id := sets[id].(hash := hash)];
    OrderValuesAgree(sets, now, a);
    OrderValuesAgree(sets, now, b);
    OrderValuesSplit(sets, a, id, b);
    OrderValuesSplit(now, a, id, b);
    var p, s := OrderValues(sets, a), OrderValues(sets, b);
    if OrderHashes(sets, id) != [] {
      OnePosition(p, hash, s, HashFrom(0, p + [hash] + s));
      OnePosition(p, sets[id].hash, s, HashFrom(0, p + [hash] + s));
    }
  }

  /** A set contributes its hash, if it is stored and counts, and nothing else in its place. */
  lemma OrderHashesIs(sets: map<Word, StickersSet>, id: Word)
    ensures OrderHashes(sets, id) == [] <==>
            id !in sets || sets[id].id == DEFAULT_SET_ID || sets[id].special || sets[id].archived
    ensures OrderHashes(sets, id) != [] ==> OrderHashes(sets, id) == [sets[id].hash]
  {}

  /** The values of an order are those of its sets one after the other. */
  lemma {:induction false} FeaturedConcat(sets: map<Word, StickersSet>, a: seq<Word>, b: seq<Word>)
    ensures FeaturedValues(sets, a + b) == FeaturedValues(sets, a) + FeaturedValues(sets, b)
  {
    hide FeaturedOne;
    if b == [] {
      assert a + b == a;
    } else {
      var n := |b| - 1;
      assert (a + b)[..|a| + n] == a + b[..n];
      FeaturedConcat(sets, a, b[..n]);
    }
  }

  /** A featured set contributes its id, and a 1 exactly if it is stored and unread. */
  lemma FeaturedIs(sets: map<Word, StickersSet>, id: Word)
    ensures FeaturedValues(sets, [id]) == [id] + if id in sets && sets[id].unread then [1] else []
  {
    assert [id][..0] == [];
  }
}
