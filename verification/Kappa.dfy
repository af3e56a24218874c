/** Cohen's kappa for two raters' labels: agreement corrected for chance, in
    exact arithmetic. */
module Kappa {
  import opened Text

  // ----- what is counted -----

  /** How often the label is given. */
  function Count(s: bytes, tag: byte): nat {
    if s == [] then 0 else (if s[0] == tag then 1 else 0) + Count(s[1..], tag)
  }

  /** The items on which the raters give the same label, below `m`. */
  function AgreeBelow(a: bytes, b: bytes, m: int): nat
    requires |a| == |b|
  {
    if a == [] then 0
    else (if a[0] == b[0] && a[0] as int < m then 1 else 0) + AgreeBelow(a[1..], b[1..], m)
  }

  function Agree(a: bytes, b: bytes): nat
    requires |a| == |b|
  {
    AgreeBelow(a, b, 256)
  }

  /** The ways to draw an item for one rater and an item for the other and find the same label. */
  function Pairs(a: bytes, b: bytes): nat {
    if a == [] then 0 else Count(b, a[0]) + Pairs(a[1..], b)
  }

  /** How far the observed rate exceeds chance, on the scale where 1 is full agreement. */
  function Corrected(observed: real, chance: real): real {
    if 1.0 - chance == 0.0 then 1.0 else (observed - chance) / (1.0 - chance)
  }

  /** Agreement on the items, corrected by the agreement independent draws would show. */
  function Kappa(a: bytes, b: bytes): real
    requires |a| == |b|
  {
    if a == [] then 1.0
    else Corrected(Rate(Agree(a, b), |a|), Rate(Pairs(a, b), |a|) / |a| as real)
  }

  function Rate(x: nat, n: nat): real
    requires n > 0
  {
    x as real / n as real
  }

  function Shorter(a: bytes, b: bytes): nat { if |a| <= |b| then |a| else |b| }

  /** Unequal lists are compared up to the end of the shorter. */
  function KappaOf(a: bytes, b: bytes): real {
    Kappa(a[..Shorter(a, b)], b[..Shorter(a, b)])
  }

  // ----- summing by label -----

  /** Multiplication, unfolded as repeated addition so that sums of products stay linear. */
  ghost function Times(x: nat, y: nat): nat {
    if x == 0 then 0 else y + Times(x - 1, y)
  }

  lemma {:induction false} TimesIs(x: nat, y: nat)
    ensures Times(x, y) == x * y
  {
    if x > 0 {
      TimesIs(x - 1, y);
      assert x * y == y + (x - 1) * y;
    }
  }

  lemma TimesAdd(x: nat, y: nat, z: nat)
    ensures Times(x, y + z) == Times(x, y) + Times(x, z)
  {
    TimesIs(x, y);
    TimesIs(x, z);
    TimesIs(x, y + z);
  }

  lemma {:induction false} TimesSymmetric(x: nat, y: nat)
    ensures Times(x, y) == Times(y, x)
  {
    TimesIs(x, y);
    TimesIs(y, x);
  }

  /** The product of the raters' counts, over the labels in `keys` below `m`. */
  ghost function Products(a: bytes, b: bytes, keys: set<byte>, m: nat): nat
    requires m <= 256
  {
    if m == 0 then 0
    else
      var tag := (m - 1) as byte;
      (if tag in keys then Times(Count(a, tag), Count(b, tag)) else 0) + Products(a, b, keys, m - 1)
  }

  lemma {:induction false} ProductsGrow(a: bytes, b: bytes, keys: set<byte>, m: nat)
    requires m <= 256 && a != [] && a[0] in keys
    ensures Products(a, b, keys, m) ==
            Products(a[1..], b, keys, m) + if (a[0] as int) < m then Count(b, a[0]) else 0
  {
    if m > 0 {
      ProductsGrow(a, b, keys, m - 1);
      var tag := (m - 1) as byte;
    }
  }

  lemma {:induction false} ProductsOfNothing(b: bytes, keys: set<byte>, m: nat)
    requires m <= 256
    ensures Products([], b, keys, m) == 0
  {
    if m > 0 { ProductsOfNothing(b, keys, m - 1); }
  }

  /** Summing by label counts the same draws, whatever extra labels are visited. */
  lemma {:induction false} ProductsArePairs(a: bytes, b: bytes, keys: set<byte>)
    requires forall x <- a :: x in keys
    ensures Products(a, b, keys, 256) == Pairs(a, b)
  {
    if a == [] {
      ProductsOfNothing(b, keys, 256);
    } else {
      ProductsGrow(a, b, keys, 256);
      ProductsArePairs(a[1..], b, keys);
    }
  }

  lemma {:induction false} ProductsAdd(a: bytes, b: bytes, keys: set<byte>, x: byte, m: nat)
    requires m <= 256 && x !in keys
    ensures Products(a, b, keys + {x}, m) ==
            Products(a, b, keys, m) + if (x as int) < m then Times(Count(a, x), Count(b, x)) else 0
  {
    if m > 0 { ProductsAdd(a, b, keys, x, m - 1); }
  }

  lemma {:induction false} ProductsSymmetric(a: bytes, b: bytes, keys: set<byte>, m: nat)
    requires m <= 256
    ensures Products(a, b, keys, m) == Products(b, a, keys, m)
  {
    if m > 0 {
      ProductsSymmetric(a, b, keys, m - 1);
      TimesSymmetric(Count(a, (m - 1) as byte), Count(b, (m - 1) as byte));
    }
  }

  ghost function Labels(s: bytes): set<byte> { set x | x in s }

  lemma PairsSymmetric(a: bytes, b: bytes)
    ensures Pairs(a, b) == Pairs(b, a)
  {
    var keys := Labels(a) + Labels(b);
    ProductsArePairs(a, b, keys);
    ProductsArePairs(b, a, keys);
    ProductsSymmetric(a, b, keys, 256);
  }

  lemma {:induction false} AgreeSymmetric(a: bytes, b: bytes, m: int)
    requires |a| == |b|
    ensures AgreeBelow(a, b, m) == AgreeBelow(b, a, m)
  {
    if a != [] { AgreeSymmetric(a[1..], b[1..], m); }
  }

  // ----- the bound on chance agreement -----

  /** Labels below `m`. */
  ghost function Below(s: bytes, m: int): nat {
    if s == [] then 0 else (if (s[0] as int) < m then 1 else 0) + Below(s[1..], m)
  }

  lemma {:induction false} BelowStep(s: bytes, tag: byte)
    ensures Below(s, tag as int + 1) == Below(s, tag as int) + Count(s, tag)
  {
    if s != [] { BelowStep(s[1..], tag); }
  }

  lemma {:induction false} BelowEnds(s: bytes)
    ensures Below(s, 0) == 0 && Below(s, 256) == |s|
  {
    if s != [] { BelowEnds(s[1..]); }
  }

  lemma {:induction false} AgreeStep(a: bytes, b: bytes, tag: byte)
    requires |a| == |b|
    ensures Count(a, tag) + Count(b, tag) + AgreeBelow(a, b, tag as int)
         <= |a| + AgreeBelow(a, b, tag as int + 1)
    ensures AgreeBelow(a, b, tag as int) <= AgreeBelow(a, b, tag as int + 1)
    ensures Count(a, tag) <= |a| && Count(b, tag) <= |b|
  {
    if a != [] { AgreeStep(a[1..], b[1..], tag); }
  }

  lemma {:induction false} AgreeEnds(a: bytes, b: bytes)
    requires |a| == |b|
    ensures AgreeBelow(a, b, 0) == 0 && Agree(a, b) <= |a|
    ensures Agree(a, b) == |a| <==> a == b
  {
    if a != [] {
      AgreeEnds(a[1..], b[1..]);
      assert a == [a[0]] + a[1..] && b == [b[0]] + b[1..];
    }
  }

  lemma MulMono(x: nat, y: int, z: int)
    requires y <= z
    ensures x * y <= x * z
  {
  }

  lemma MulAdd(x: int, y: int, z: int)
    ensures x * (y + z) == x * y + x * z
  {
  }

  lemma MeanBound(x: int, y: int)
    ensures 4 * (x * y) <= (x + y) * (x + y)
  {
    assert (x + y) * (x + y) == 4 * (x * y) + (x - y) * (x - y);
  }

  /** For one label: the arithmetic mean bounds the product of the two counts, and
      inclusion-exclusion bounds their sum. */
  lemma LabelBound(x: nat, y: nat, n: nat, agree: nat, t: nat)
    requires x + y <= n + agree && x + y <= t
    ensures 4 * Times(x, y) <= Times(n, x + y) + Times(t, agree)
  {
    var s := x + y;
    calc {
      4 * Times(x, y);
    == { TimesIs(x, y); }
      4 * (x * y);
    <= { MeanBound(x, y); }
      s * s;
    <= { MulMono(s, s, n + agree); }
      s * (n + agree);
    == { MulAdd(s, n, agree); }
      s * n + s * agree;
    <= { MulMono(agree, s, t); }
      n * s + t * agree;
    == { TimesIs(n, s); TimesIs(t, agree); }
      Times(n, s) + Times(t, agree);
    }
  }

  lemma {:induction false} ChanceBoundUpTo(a: bytes, b: bytes, keys: set<byte>, m: nat, n: nat, t: nat)
    requires |a| == |b| == n && t == n + n && m <= 256
    ensures 4 * Products(a, b, keys, m) <= ChanceLimit(a, b, m, n, t)
  {
    if m > 0 {
      ChanceBoundUpTo(a, b, keys, m - 1, n, t);
      LimitGrows(a, b, (m - 1) as byte, n, t);
    }
  }

  ghost function ChanceLimit(a: bytes, b: bytes, m: int, n: nat, t: nat): nat
    requires |a| == |b|
  {
    Times(n, Below(a, m) + Below(b, m)) + Times(t, AgreeBelow(a, b, m))
  }

  lemma LimitGrows(a: bytes, b: bytes, tag: byte, n: nat, t: nat)
    requires |a| == |b| == n && t == n + n
    ensures ChanceLimit(a, b, tag as int, n, t) + 4 * Times(Count(a, tag), Count(b, tag))
         <= ChanceLimit(a, b, tag as int + 1, n, t)
  {
    var m := tag as int;
    var x, y := Count(a, tag), Count(b, tag);
    AgreeStep(a, b, tag);
    BelowStep(a, tag);
    BelowStep(b, tag);
    var agree := AgreeBelow(a, b, m);
    var gained := AgreeBelow(a, b, m + 1) - agree;
    LabelBound(x, y, n, gained, t);
    TimesAdd(n, Below(a, m) + Below(b, m), x + y);
    TimesAdd(t, agree, gained);
  }

  /** Chance agreement is at most halfway from the observed agreement to 1. */
  lemma ChanceBound(a: bytes, b: bytes)
    requires |a| == |b|
    ensures 2 * Pairs(a, b) <= (|a| + Agree(a, b)) * |a|
  {
    var n := |a|;
    ChanceBoundUpTo(a, b, Labels(a), 256, n, n + n);
    ProductsArePairs(a, b, Labels(a));
    BelowEnds(a);
    BelowEnds(b);
    Halve(Pairs(a, b), n, Agree(a, b));
  }

  lemma Halve(p: nat, n: nat, agree: nat)
    requires 4 * p <= Times(n, n + n) + Times(n + n, agree)
    ensures 2 * p <= (n + agree) * n
  {
    TimesIs(n, n + n);
    TimesIs(n + n, agree);
  }

  // ----- what kappa promises -----

  lemma Cancel(x: real, y: real, r: real)
    requires r > 0.0 && x * r <= y * r
    ensures x <= y
  {
  }

  lemma CorrectedRange(observed: real, chance: real)
    requires observed <= 1.0 && 2.0 * chance <= 1.0 + observed
    ensures -1.0 <= Corrected(observed, chance) <= 1.0
    ensures Corrected(observed, chance) == 1.0 <==> observed == 1.0
  {
    var x, y := observed - chance, 1.0 - chance;
    if y != 0.0 {
      var k := x / y;
      assert k * y == x;
      Cancel(k, 1.0, y);
      Cancel(-1.0, k, y);
    }
  }

  lemma RateBounds(r: real, w: real, p: real, observed: real, q: real, chance: real)
    requires r > 0.0 && w <= r && 2.0 * p <= (r + w) * r
    requires observed * r == w && q * r == p && chance * r == q
    ensures observed <= 1.0 && 2.0 * chance <= 1.0 + observed
    ensures observed == 1.0 <==> w == r
  {
    Cancel(observed, 1.0, r);
    Cancel(2.0 * q, r + w, r);
    Cancel(2.0 * chance, 1.0 + observed, r);
  }

  lemma {:induction false} KappaBounds(n: nat, agree: nat, pairs: nat)
    requires n > 0 && agree <= n && 2 * pairs <= (n + agree) * n
    ensures -1.0 <= Corrected(Rate(agree, n), Rate(pairs, n) / n as real) <= 1.0
    ensures Corrected(Rate(agree, n), Rate(pairs, n) / n as real) == 1.0 <==> agree == n
  {
    var r := n as real;
    var observed, q := Rate(agree, n), Rate(pairs, n);
    var chance := q / r;
    assert ((n + agree) * n) as real == (r + agree as real) * r;
    RateBounds(r, agree as real, pairs as real, observed, q, chance);
    CorrectedRange(observed, chance);
  }

  /** Kappa lies between -1 and 1, treats the raters alike, and is 1 exactly when
      they agree on every compared item. */
  lemma KappaRange(a: bytes, b: bytes)
    requires |a| == |b|
    ensures -1.0 <= Kappa(a, b) <= 1.0
    ensures Kappa(a, b) == Kappa(b, a)
    ensures Kappa(a, b) == 1.0 <==> a == b
  {
    AgreeSymmetric(a, b, 256);
    PairsSymmetric(a, b);
    AgreeEnds(a, b);
    if a != [] {
      ChanceBound(a, b);
      var n := |a|;
      KappaBounds(n, Agree(a, b), Pairs(a, b));
    }
  }

  lemma KappaOfRange(a: bytes, b: bytes)
    ensures -1.0 <= KappaOf(a, b) <= 1.0
    ensures KappaOf(a, b) == KappaOf(b, a)
    ensures KappaOf(a, b) == 1.0 <==> forall i :: 0 <= i < |a| && i < |b| ==> a[i] == b[i]
  {
    var n := Shorter(a, b);
    KappaRange(a[..n], b[..n]);
    assert a[..n] == b[..n] <==> forall i :: 0 <= i < n ==> a[i] == b[i] by {
      assert forall i :: 0 <= i < n ==> a[..n][i] == a[i] && b[..n][i] == b[i];
    }
  }

  // ----- what kappa is -----

  /** Two draws, one from each rater, that show the same label. */
  ghost function SamePairs(a: bytes, b: bytes, rows: nat): set<(nat, nat)>
    requires rows <= |a|
  {
    set i: nat, j: nat | i < rows && j < |b| && a[i] == b[j] :: (i, j)
  }

  /** The items on which the raters agree. */
  ghost function SameItems(a: bytes, b: bytes, n: nat): set<nat>
    requires n <= |a| == |b|
  {
    set i: nat | i < n && a[i] == b[i]
  }

  lemma {:induction false} AgreeIsSize(a: bytes, b: bytes, n: nat)
    requires n <= |a| == |b|
    ensures Agree(a[..n], b[..n]) == |SameItems(a, b, n)|
  {
    if n == 0 {
      assert SameItems(a, b, 0) == {};
    } else {
      var m := n - 1;
      AgreeIsSize(a, b, m);
      AgreeAppend(a[..m], b[..m], a[m], b[m]);
      assert a[..n] == a[..m] + [a[m]] && b[..n] == b[..m] + [b[m]];
      assert SameItems(a, b, n) == SameItems(a, b, m) + if a[m] == b[m] then {m} else {};
    }
  }

  /** One row: where the other rater gives the label. */
  ghost function Row(b: bytes, tag: byte, i: nat, n: nat): set<(nat, nat)>
    requires n <= |b|
  {
    set j: nat | j < n && b[j] == tag :: (i, j)
  }

  lemma {:induction false} CountIsSize(b: bytes, tag: byte, i: nat, n: nat)
    requires n <= |b|
    ensures Count(b[..n], tag) == |Row(b, tag, i, n)|
  {
    if n == 0 {
      assert Row(b, tag, i, 0) == {};
    } else {
      var m := n - 1;
      CountIsSize(b, tag, i, m);
      CountAppend(b[..m], b[m], tag);
      assert b[..n] == b[..m] + [b[m]];
      assert Row(b, tag, i, n) == Row(b, tag, i, m) + if b[m] == tag then {(i, m)} else {};
    }
  }

  lemma {:induction false} PairsAppend(a: bytes, x: byte, b: bytes)
    ensures Pairs(a + [x], b) == Pairs(a, b) + Count(b, x)
  {
    if a == [] {
      assert a + [x] == [x] && [x][1..] == [];
    } else {
      assert (a + [x])[0] == a[0] && (a + [x])[1..] == a[1..] + [x];
      PairsAppend(a[1..], x, b);
    }
  }

  lemma {:induction false} PairsIsSize(a: bytes, b: bytes, rows: nat)
    requires rows <= |a|
    ensures Pairs(a[..rows], b) == |SamePairs(a, b, rows)|
  {
    if rows == 0 {
      assert SamePairs(a, b, 0) == {};
    } else {
      var m := rows - 1;
      PairsIsSize(a, b, m);
      PairsAppend(a[..m], a[m], b);
      CountIsSize(b, a[m], m, |b|);
      assert a[..rows] == a[..m] + [a[m]] && b[..|b|] == b;
      RowAdds(a, b, m);
    }
  }

  lemma RowAdds(a: bytes, b: bytes, m: nat)
    requires m < |a|
    ensures |SamePairs(a, b, m + 1)| == |SamePairs(a, b, m)| + |Row(b, a[m], m, |b|)|
  {
    var before, row := SamePairs(a, b, m), Row(b, a[m], m, |b|);
    assert SamePairs(a, b, m + 1) == before + row;
    assert before !! row;
  }

  /** The agreeing items and the agreeing draws, counted over the compared items. */
  ghost function AgreeCount(a: bytes, b: bytes): nat {
    |SameItems(a[..Shorter(a, b)], b[..Shorter(a, b)], Shorter(a, b))|
  }

  ghost function DrawCount(a: bytes, b: bytes): nat {
    |SamePairs(a[..Shorter(a, b)], b[..Shorter(a, b)], Shorter(a, b))|
  }

  lemma CountsAre(a: bytes, b: bytes)
    ensures var n := Shorter(a, b);
      Agree(a[..n], b[..n]) == AgreeCount(a, b) && Pairs(a[..n], b[..n]) == DrawCount(a, b)
  {
    var n := Shorter(a, b);
    AgreeIsSize(a[..n], b[..n], n);
    PairsIsSize(a[..n], b[..n], n);
    assert a[..n][..n] == a[..n] && b[..n][..n] == b[..n];
  }

  lemma CorrectedIs(observed: real, chance: real, n: real, agree: real, pairs: real)
    requires n > 0.0 && observed * n == agree && chance * n * n == pairs
    ensures (1.0 - Corrected(observed, chance)) * (1.0 - chance) == if chance == 1.0 then 0.0 else 1.0 - observed
    ensures (1.0 - chance) * n * n == n * n - pairs && (1.0 - observed) * n * n == n * (n - agree)
  {
    var x, y := observed - chance, 1.0 - chance;
    if y != 0.0 {
      assert x / y * y == x;
    }
  }

  lemma KappaScaled(k: real, observed: real, chance: real, n: real, agree: real, pairs: real)
    requires (1.0 - k) * (1.0 - chance) == 1.0 - observed
    requires (1.0 - chance) * n * n == n * n - pairs && (1.0 - observed) * n * n == n * (n - agree)
    ensures (1.0 - k) * (n * n - pairs) == n * (n - agree)
  {
    calc {
      (1.0 - k) * (n * n - pairs);
      (1.0 - k) * ((1.0 - chance) * n * n);
      ((1.0 - k) * (1.0 - chance)) * n * n;
      n * (n - agree);
    }
  }

  lemma RatesScaled(agree: nat, pairs: nat, m: nat)
    requires m > 0
    ensures Rate(agree, m) * m as real == agree as real
    ensures Rate(pairs, m) / m as real * m as real * m as real == pairs as real
  {
    var q := Rate(pairs, m);
    assert q * m as real == pairs as real;
    assert q / m as real * m as real == q;
  }

  lemma KappaOfRates(agree: nat, pairs: nat, m: nat)
    requires m > 0 && (Rate(pairs, m) / m as real == 1.0 ==> Rate(agree, m) == 1.0)
    ensures var (k, n) := (Corrected(Rate(agree, m), Rate(pairs, m) / m as real), m as real);
      (1.0 - k) * (n * n - pairs as real) == n * (n - agree as real)
  {
    hide Corrected, Rate;
    var n, observed, chance := m as real, Rate(agree, m), Rate(pairs, m) / m as real;
    RatesScaled(agree, pairs, m);
    CorrectedIs(observed, chance, n, agree as real, pairs as real);
    KappaScaled(Corrected(observed, chance), observed, chance, n, agree as real, pairs as real);
  }

  /** Kappa from the counts alone: the share of the disagreement chance would leave that
      the raters do not show. It needs no case for full chance agreement. */
  lemma KappaFromCounts(a: bytes, b: bytes)
    ensures var (n, agree, draws) := (Shorter(a, b) as real, AgreeCount(a, b) as real, DrawCount(a, b) as real);
      (1.0 - KappaOf(a, b)) * (n * n - draws) == n * (n - agree)
  {
    hide AgreeCount, DrawCount, Corrected, Rate, Agree, Pairs;
    var m := Shorter(a, b);
    CountsAre(a, b);
    if m > 0 {
      var s, t := a[..m], b[..m];
      if Rate(Pairs(s, t), m) / m as real == 1.0 { FullChance(s, t); }
      KappaOfRates(Agree(s, t), Pairs(s, t), m);
    }
  }

  /** Chance agreement of 1 leaves no room to disagree. */
  lemma FullChance(a: bytes, b: bytes)
    requires |a| == |b| > 0 && Rate(Pairs(a, b), |a|) / |a| as real == 1.0
    ensures Rate(Agree(a, b), |a|) == 1.0
  {
    KappaRange(a, b);
    AgreeEnds(a, b);
    assert Kappa(a, b) == 1.0;
  }

  lemma SignOf(k: real, n: nat, agree: nat, draws: nat)
    requires draws < n * n
    requires (1.0 - k) * (n as real * n as real - draws as real) == n as real * (n as real - agree as real)
    ensures k == 0.0 <==> n * agree == draws
    ensures k < 0.0 <==> n * agree < draws
  {
    var r, w, d := n as real, agree as real, draws as real;
    assert (n * n) as real == r * r && (n * agree) as real == r * w;
    RoomSign(k, r * r - d, r * w - d);
  }

  lemma RoomSign(k: real, room: real, excess: real)
    requires room > 0.0 && k * room == excess
    ensures (k == 0.0 <==> excess == 0.0) && (k < 0.0 <==> excess < 0.0)
  {
  }

  /** Raters who agree as chance would have kappa 0; with less agreement it is negative. */
  lemma KappaSign(a: bytes, b: bytes)
    requires DrawCount(a, b) < Shorter(a, b) * Shorter(a, b)
    ensures KappaOf(a, b) == 0.0 <==> Shorter(a, b) * AgreeCount(a, b) == DrawCount(a, b)
    ensures KappaOf(a, b) < 0.0 <==> Shorter(a, b) * AgreeCount(a, b) < DrawCount(a, b)
  {
    hide KappaOf, Shorter, AgreeCount, DrawCount;
    KappaFromCounts(a, b);
    SignOf(KappaOf(a, b), Shorter(a, b), AgreeCount(a, b), DrawCount(a, b));
  }

  /** Half the items agree, as chance alone would have it. */
  lemma ChanceWitness()
    ensures KappaOf([1, 1, 2, 2], [1, 2, 1, 2]) == 0.0
  {
    var a: bytes, b: bytes := [1, 1, 2, 2], [1, 2, 1, 2];
    assert a[..4] == a && b[..4] == b;
    assert a[1..] == [1, 2, 2] && a[1..][1..] == [2, 2] && a[1..][1..][1..] == [2];
    assert b[1..] == [2, 1, 2] && b[1..][1..] == [1, 2] && b[1..][1..][1..] == [2];
    assert Count(b, 1) == 2 && Count(b, 2) == 2;
    assert Pairs(a, b) == 8;
    assert Agree(a, b) == 2;
  }

  // ----- the computation -----

  lemma {:induction false} CountAppend(s: bytes, x: byte, tag: byte)
    ensures Count(s + [x], tag) == Count(s, tag) + if x == tag then 1 else 0
  {
    if s != [] {
      assert (s + [x])[0] == s[0] && (s + [x])[1..] == s[1..] + [x];
      CountAppend(s[1..], x, tag);
    }
  }

  lemma {:induction false} AgreeAppend(a: bytes, b: bytes, x: byte, y: byte)
    requires |a| == |b|
    ensures Agree(a + [x], b + [y]) == Agree(a, b) + if x == y then 1 else 0
  {
    if a == [] {
      assert a + [x] == [x] && b + [y] == [y] && [x][1..] == [] && [y][1..] == [];
    } else {
      assert (a + [x])[0] == a[0] && (a + [x])[1..] == a[1..] + [x];
      assert (b + [y])[0] == b[0] && (b + [y])[1..] == b[1..] + [y];
      AgreeAppend(a[1..], b[1..], x, y);
    }
  }

  ghost predicate Tallies(counts: map<byte, nat>, s: bytes) {
    (forall tag :: tag in counts <==> tag in s) &&
    forall tag :: Count(s, tag) == if tag in counts then counts[tag] else 0
  }

  method Tally(counts: map<byte, nat>, x: byte, ghost s: bytes) returns (r: map<byte, nat>)
    requires Tallies(counts, s)
    ensures Tallies(r, s + [x])
  {
    r := counts[x := (if x in counts then counts[x] else 0) + 1];
    forall tag ensures Count(s + [x], tag) == if tag in r then r[tag] else 0 {
      CountAppend(s, x, tag);
    }
  }

  /** The labels are tallied in one pass and the expected agreement summed over the
      labels seen, in any order. */
  method CohensKappa(a: bytes, b: bytes) returns (kappa: real)
    ensures kappa == KappaOf(a, b)
  {
    var n := if |a| <= |b| then |a| else |b|;
    if n == 0 {
      return 1.0;
    }
    var agree, i := 0, 0;
    var countA: map<byte, nat>, countB: map<byte, nat> := map[], map[];
    while i < n
      invariant i <= n && agree == Agree(a[..i], b[..i])
      invariant Tallies(countA, a[..i]) && Tallies(countB, b[..i])
    {
      AgreeAppend(a[..i], b[..i], a[i], b[i]);
      assert a[..i + 1] == a[..i] + [a[i]] && b[..i + 1] == b[..i] + [b[i]];
      agree := agree + if a[i] == b[i] then 1 else 0;
      countA := Tally(countA, a[i], a[..i]);
      countB := Tally(countB, b[i], b[..i]);
      i := i + 1;
    }
    ghost var one := 1.0 / n as real / n as real;
    var chance := Expected(countA, countB, n, a[..n], b[..n], one);
    ShareIsRate(Pairs(a[..n], b[..n]), one, n);
    var observed := agree as real / n as real;
    assert a[..n][..n] == a[..n];
    kappa := if 1.0 - chance == 0.0 then 1.0 else (observed - chance) / (1.0 - chance);
  }

  /** The chance of hitting one of `draws` draws, each of chance `one`. */
  ghost function Share(draws: nat, one: real): real {
    if draws == 0 then 0.0 else Share(draws - 1, one) + one
  }

  ghost predicate OneDraw(one: real, n: nat) {
    n > 0 && one * n as real * n as real == 1.0
  }

  lemma {:induction false} ShareIsProduct(draws: nat, one: real)
    ensures Share(draws, one) == draws as real * one
  {
    if draws > 0 {
      ShareIsProduct(draws - 1, one);
      assert draws as real * one == (draws - 1) as real * one + one;
    }
  }

  lemma Unscale(x: real, y: real, r: real)
    requires r > 0.0 && x * r * r == y * r * r
    ensures x == y
  {
    Cancel(x * r, y * r, r);
    Cancel(y * r, x * r, r);
  }

  lemma Scale(chance: real, fa: real, fb: real, r: real, x: real, y: real)
    requires fa * r == x && fb * r == y
    ensures (chance + fa * fb) * r * r == chance * r * r + x * y
  {
    calc {
      (chance + fa * fb) * r * r;
      (chance * r + fa * fb * r) * r;
      chance * r * r + fa * fb * r * r;
      { assert fa * fb * r * r == (fa * r) * (fb * r); }
      chance * r * r + (fa * r) * (fb * r);
    }
  }

  lemma ShareScaled(draws: nat, one: real, n: nat, r: real)
    requires OneDraw(one, n) && r == n as real
    ensures Share(draws, one) * r * r == draws as real
  {
    ShareIsProduct(draws, one);
    var d := draws as real;
    assert d * one * r * r == d * (one * r * r);
  }

  lemma ShareIs(share: real, draws: nat, one: real, n: nat, r: real)
    requires OneDraw(one, n) && r == n as real && share * r * r == draws as real
    ensures share == Share(draws, one)
  {
    ShareScaled(draws, one, n, r);
    Unscale(share, Share(draws, one), r);
  }

  lemma ShareIsRate(draws: nat, one: real, n: nat)
    requires OneDraw(one, n)
    ensures Share(draws, one) == Rate(draws, n) / n as real
  {
    var r := n as real;
    var rate := Rate(draws, n);
    assert rate * r == draws as real && rate / r * r == rate;
    ShareIs(rate / r, draws, one, n, r);
  }

  method AddTerm(chance: real, x: nat, y: nat, n: nat, ghost draws: nat, ghost one: real) returns (r: real)
    requires OneDraw(one, n) && chance == Share(draws, one)
    ensures r == Share(draws + Times(x, y), one)
  {
    var w := n as real;
    var fa, fb := x as real / w, y as real / w;
    r := chance + fa * fb;
    TimesIs(x, y);
    assert (x * y) as real == x as real * y as real;
    ShareScaled(draws, one, n, w);
    Scale(chance, fa, fb, w, x as real, y as real);
    ShareIs(r, draws + Times(x, y), one, n, w);
  }

  /** The chance that both draws show a label among `keys`. */
  ghost function Chance(a: bytes, b: bytes, keys: set<byte>, one: real): real {
    Share(Products(a, b, keys, 256), one)
  }

  method Visit(countA: map<byte, nat>, countB: map<byte, nat>, tag: byte, n: nat, chance: real,
      ghost a: bytes, ghost b: bytes, ghost seen: set<byte>, ghost one: real) returns (r: real)
    requires OneDraw(one, n) && Tallies(countA, a) && Tallies(countB, b)
    requires tag !in seen && chance == Chance(a, b, seen, one)
    ensures r == Chance(a, b, seen + {tag}, one)
  {
    var x := if tag in countA then countA[tag] else 0;
    var y := if tag in countB then countB[tag] else 0;
    ProductsAdd(a, b, seen, tag, 256);
    r := AddTerm(chance, x, y, n, Products(a, b, seen, 256), one);
  }

  method Expected(countA: map<byte, nat>, countB: map<byte, nat>, n: nat, ghost a: bytes, ghost b: bytes,
      ghost one: real) returns (chance: real)
    requires OneDraw(one, n) && Tallies(countA, a) && Tallies(countB, b)
    ensures chance == Share(Pairs(a, b), one)
  {
    var left := countA.Keys + countB.Keys;
    ghost var seen: set<byte> := {};
    ProductsArePairs(a, b, left);
    NoProducts(a, b, 256);
    chance := 0.0;
    while left != {}
      invariant chance == Chance(a, b, seen, one)
      invariant seen !! left && Products(a, b, seen + left, 256) == Pairs(a, b)
      decreases |left|
    {
      var tag :| tag in left;
      chance := Visit(countA, countB, tag, n, chance, a, b, seen, one);
      Move(seen, left, tag);
      left, seen := left - {tag}, seen + {tag};
    }
    assert seen + left == seen;
  }

  lemma Move(seen: set<byte>, left: set<byte>, tag: byte)
    requires tag in left && seen !! left
    ensures (seen + {tag}) + (left - {tag}) == seen + left && seen + {tag} !! left - {tag}
  {
  }

  lemma {:induction false} NoProducts(a: bytes, b: bytes, m: nat)
    requires m <= 256
    ensures Products(a, b, {}, m) == 0
  {
    if m > 0 { NoProducts(a, b, m - 1); }
  }
}
