/** Scoring received audio against expected audio, with exact real numbers (audio/match.go). */
module Matching {
  import opened Ints

  /** The square root the scores are computed with. */
  ghost predicate IsRoot(root: real -> real) {
    forall x: real :: x >= 0.0 ==> root(x) >= 0.0 && root(x) * root(x) == x
  }

  function Sum(xs: seq<real>): real {
    if xs == [] then 0.0 else Sum(xs[..|xs| - 1]) + xs[|xs| - 1]
  }

  function Dot(us: seq<real>, vs: seq<real>): real
    requires |us| == |vs|
  {
    if us == [] then 0.0 else Dot(us[..|us| - 1], vs[..|vs| - 1]) + us[|us| - 1] * vs[|vs| - 1]
  }

  function Mean(xs: seq<real>): real {
    if xs == [] then 0.0 else Sum(xs) / |xs| as real
  }

  /** The samples without their mean. */
  function Centered(xs: seq<real>): (r: seq<real>)
    ensures |r| == |xs|
  {
    seq(|xs|, i requires 0 <= i < |xs| => xs[i] - Mean(xs))
  }

  function Numerator(left: seq<real>, right: seq<real>): real
    requires |left| == |right|
  {
    Dot(Centered(left), Centered(right))
  }

  function Power(xs: seq<real>): real {
    Dot(Centered(xs), Centered(xs))
  }

  // Cauchy and Schwarz.

  /** t times one sequence plus another. */
  function Combine(us: seq<real>, vs: seq<real>, t: real): (r: seq<real>)
    requires |us| == |vs|
    ensures |r| == |us| && forall i :: 0 <= i < |us| ==> r[i] == t * us[i] + vs[i]
  {
    seq(|us|, i requires 0 <= i < |us| => t * us[i] + vs[i])
  }

  function Quadratic(t: real, a: real, b: real, c: real): real {
    t * t * a + 2.0 * t * b + c
  }

  lemma SquareOf(t: real, u: real, v: real)
    ensures (t * u + v) * (t * u + v) == Quadratic(t, u * u, u * v, v * v)
  {
    assert (t * u + v) * (t * u + v) == t * u * (t * u) + t * u * v + v * (t * u) + v * v;
  }

  lemma Collect(t: real, a: real, b: real, c: real, x: real, y: real, z: real)
    ensures Quadratic(t, a, b, c) + Quadratic(t, x, y, z) == Quadratic(t, a + x, b + y, c + z)
  {
  }

  lemma CombineFront(us: seq<real>, vs: seq<real>, t: real)
    requires |us| == |vs| && us != []
    ensures Combine(us, vs, t)[..|us| - 1] == Combine(us[..|us| - 1], vs[..|vs| - 1], t)
  {
    var n := |us| - 1;
    var a, b := Combine(us, vs, t)[..n], Combine(us[..n], vs[..n], t);
    forall i | 0 <= i < n
      ensures a[i] == b[i]
    {
      assert us[..n][i] == us[i] && vs[..n][i] == vs[i];
    }
  }

  lemma DotLast(us: seq<real>, vs: seq<real>, n: nat)
    requires |us| == |vs| == n + 1
    ensures Dot(us, vs) == Dot(us[..n], vs[..n]) + us[n] * vs[n]
  {
  }

  lemma QuadraticNext(t: real, a: real, b: real, c: real, u: real, v: real, w: real, aa: real, bb: real, cc: real)
    requires w == t * u + v && aa == a + u * u && bb == b + u * v && cc == c + v * v
    ensures Quadratic(t, a, b, c) + w * w == Quadratic(t, aa, bb, cc)
  {
    SquareOf(t, u, v);
    Collect(t, a, b, c, u * u, u * v, v * v);
  }

  lemma {:induction false} CombineSquares(us: seq<real>, vs: seq<real>, t: real)
    requires |us| == |vs|
    ensures var w := Combine(us, vs, t); Dot(w, w) == Quadratic(t, Dot(us, us), Dot(us, vs), Dot(vs, vs))
  {
    if us != [] {
      var n := |us| - 1;
      var w := Combine(us, vs, t);
      CombineSquares(us[..n], vs[..n], t);
      CombineFront(us, vs, t);
      DotLast(w, w, n);
      DotLast(us, us, n);
      DotLast(us, vs, n);
      DotLast(vs, vs, n);
      QuadraticNext(t, Dot(us[..n], us[..n]), Dot(us[..n], vs[..n]), Dot(vs[..n], vs[..n]), us[n], vs[n], w[n],
                    Dot(us, us), Dot(us, vs), Dot(vs, vs));
    }
  }

  lemma PositiveTimes(a: real, b: real) returns (product: real)
    requires a > 0.0 && b > 0.0
    ensures product == a * b && product > 0.0
  {
    product := a * b;
  }

  function Square(x: real): real {
    x * x
  }

  lemma SquareOfPositive(x: real)
    requires x > 0.0
    ensures Square(x) > 0.0
  {
    var square := PositiveTimes(x, x);
  }

  lemma SquareOfNegative(x: real)
    ensures Square(-x) == Square(x)
  {
  }

  lemma SquarePositive(x: real)
    requires x != 0.0
    ensures Square(x) > 0.0
  {
    if x > 0.0 {
      SquareOfPositive(x);
    } else {
      SquareOfPositive(-x);
      SquareOfNegative(x);
    }
  }

  lemma SquareNotNegative(x: real)
    ensures Square(x) >= 0.0
    ensures x != 0.0 ==> Square(x) > 0.0
  {
    if x != 0.0 {
      SquarePositive(x);
    }
  }

  /** A sum of squares is not negative. */
  lemma {:induction false} SquaresNotNegative(us: seq<real>)
    ensures Dot(us, us) >= 0.0
  {
    if us != [] {
      SquaresNotNegative(us[..|us| - 1]);
      SquareNotNegative(us[|us| - 1]);
    }
  }

  lemma AddSquare(f: real, x: real)
    requires f >= 0.0
    ensures f + Square(x) >= f
    ensures x != 0.0 ==> f + Square(x) > 0.0
  {
    SquareNotNegative(x);
  }

  /** And positive as soon as one term is not zero. */
  lemma {:induction false} SquaresPositive(us: seq<real>, i: nat)
    requires i < |us| && us[i] != 0.0
    ensures Dot(us, us) > 0.0
  {
    var n := |us| - 1;
    SquaresNotNegative(us[..n]);
    AddSquare(Dot(us[..n], us[..n]), us[n]);
    if i < n {
      SquaresPositive(us[..n], i);
    }
  }

  lemma SquaresZero(us: seq<real>)
    requires Dot(us, us) == 0.0
    ensures forall i :: 0 <= i < |us| ==> us[i] == 0.0
  {
    forall i | 0 <= i < |us|
      ensures us[i] == 0.0
    {
      if us[i] != 0.0 {
        SquaresPositive(us, i);
      }
    }
  }

  lemma {:induction false} ZeroDot(us: seq<real>, vs: seq<real>)
    requires |us| == |vs| && forall i :: 0 <= i < |us| ==> us[i] == 0.0
    ensures Dot(us, vs) == 0.0
  {
    if us != [] {
      ZeroDot(us[..|us| - 1], vs[..|vs| - 1]);
    }
  }

  lemma PowerNotNegative(xs: seq<real>)
    ensures Power(xs) >= 0.0
  {
    SquaresNotNegative(Centered(xs));
  }

  lemma ZeroSquare(r: real)
    requires r == 0.0
    ensures r * r == 0.0
  {
  }

  lemma RootPositive(a: real, b: real, root: real -> real)
    requires IsRoot(root) && a > 0.0 && b > 0.0
    ensures a * b > 0.0 && root(a * b) > 0.0
  {
    var product := PositiveTimes(a, b);
    var r := root(product);
    assert r >= 0.0 && r * r == product;
    if r == 0.0 {
      ZeroSquare(r);
    }
  }

  function Score(numerator: real, leftPower: real, rightPower: real, root: real -> real): real
    requires IsRoot(root) && leftPower > 0.0 && rightPower > 0.0
  {
    RootPositive(leftPower, rightPower, root);
    numerator / root(leftPower * rightPower)
  }

  /** The score of two frames: zero when either is constant or their lengths differ. */
  function Correlation(left: seq<real>, right: seq<real>, root: real -> real): real
    requires IsRoot(root)
  {
    if left == [] || |left| != |right| || Power(left) == 0.0 || Power(right) == 0.0 then 0.0
    else
      PowerNotNegative(left);
      PowerNotNegative(right);
      Score(Numerator(left, right), Power(left), Power(right), root)
  }

  lemma QuadraticAtMinimum(a: real, b: real, c: real)
    requires a > 0.0
    ensures Quadratic(-b / a, a, b, c) == c - b * b / a
  {
    var t := -b / a;
    assert t * a == -b;
    assert t * t * a == t * (t * a) == t * (-b);
    assert t * b == -(b * b / a);
  }

  /** The square of the numerator is at most the product of the powers. */
  lemma CauchySchwarz(us: seq<real>, vs: seq<real>)
    requires |us| == |vs|
    ensures Dot(us, vs) * Dot(us, vs) <= Dot(us, us) * Dot(vs, vs)
  {
    var a, b, c := Dot(us, us), Dot(us, vs), Dot(vs, vs);
    SquaresNotNegative(us);
    if a == 0.0 {
      SquaresZero(us);
      ZeroDot(us, vs);
    } else {
      var w := Combine(us, vs, -b / a);
      CombineSquares(us, vs, -b / a);
      SquaresNotNegative(w);
      QuadraticAtMinimum(a, b, c);
      ScaleUp(a, b, c);
    }
  }

  lemma ScaleUp(a: real, b: real, c: real)
    requires a > 0.0 && c - b * b / a >= 0.0
    ensures b * b <= a * c
  {
    var q := b * b / a;
    assert q * a == b * b;
    Monotone(q, c, a);
  }

  lemma Monotone(x: real, y: real, a: real)
    requires x <= y && a > 0.0
    ensures x * a <= y * a
  {
  }

  lemma NumeratorBounded(left: seq<real>, right: seq<real>)
    requires |left| == |right|
    ensures Numerator(left, right) * Numerator(left, right) <= Power(left) * Power(right)
  {
    CauchySchwarz(Centered(left), Centered(right));
  }

  lemma QuotientWithin(n: real, d: real, product: real)
    requires d > 0.0 && d * d == product && n * n <= product
    ensures -1.0 <= n / d <= 1.0
  {
    if n > d {
      SquareGrows(d, n);
    } else if n < -d {
      SquareGrows(d, -n);
    }
  }

  lemma SquareGrows(a: real, b: real)
    requires 0.0 < a < b
    ensures a * a < b * b
  {
  }

  lemma ScoreWithin(n: real, l: real, r: real, root: real -> real)
    requires IsRoot(root) && l > 0.0 && r > 0.0 && n * n <= l * r
    ensures -1.0 <= Score(n, l, r, root) <= 1.0
  {
    RootPositive(l, r, root);
    QuotientWithin(n, root(l * r), l * r);
  }

  /** No score is outside -1 to 1. */
  lemma CorrelationWithin(left: seq<real>, right: seq<real>, root: real -> real)
    requires IsRoot(root)
    ensures -1.0 <= Correlation(left, right, root) <= 1.0
  {
    if left != [] && |left| == |right| && Power(left) != 0.0 && Power(right) != 0.0 {
      PowerNotNegative(left);
      PowerNotNegative(right);
      NumeratorBounded(left, right);
      ScoreWithin(Numerator(left, right), Power(left), Power(right), root);
    }
  }

  // A copy of a frame, louder or softer and shifted.

  function Copy(xs: seq<real>, scale: real, shift: real): (r: seq<real>)
    ensures |r| == |xs|
  {
    seq(|xs|, i requires 0 <= i < |xs| => scale * xs[i] + shift)
  }

  function Count(n: nat): real {
    n as real
  }

  lemma {:induction false} SumCopy(xs: seq<real>, scale: real, shift: real)
    ensures Sum(Copy(xs, scale, shift)) == scale * Sum(xs) + Count(|xs|) * shift
  {
    if xs != [] {
      var n := |xs| - 1;
      SumCopy(xs[..n], scale, shift);
      CopyFront(xs, scale, shift);
      assert Copy(xs, scale, shift)[n] == scale * xs[n] + shift;
      Distribute(scale, Sum(xs[..n]), xs[n], Count(n), shift);
      assert Count(n) + 1.0 == Count(|xs|);
    }
  }

  lemma CopyFront(xs: seq<real>, scale: real, shift: real)
    requires xs != []
    ensures Copy(xs, scale, shift)[..|xs| - 1] == Copy(xs[..|xs| - 1], scale, shift)
  {
    var n := |xs| - 1;
    var a, b := Copy(xs, scale, shift)[..n], Copy(xs[..n], scale, shift);
    forall i | 0 <= i < n
      ensures a[i] == b[i]
    {
      assert xs[..n][i] == xs[i];
    }
  }

  lemma Distribute(scale: real, sum: real, x: real, n: real, shift: real)
    ensures scale * sum + n * shift + (scale * x + shift) == scale * (sum + x) + (n + 1.0) * shift
  {
  }

  lemma DivideMean(scale: real, sum: real, n: real, shift: real)
    requires n > 0.0
    ensures (scale * sum + n * shift) / n == scale * (sum / n) + shift
  {
    var q := sum / n;
    assert sum == q * n;
    assert (scale * q + shift) * n == scale * sum + n * shift;
  }

  lemma MeanCopy(xs: seq<real>, scale: real, shift: real)
    requires xs != []
    ensures Mean(Copy(xs, scale, shift)) == scale * Mean(xs) + shift
  {
    SumCopy(xs, scale, shift);
    DivideMean(scale, Sum(xs), Count(|xs|), shift);
  }

  ghost predicate Scaled(us: seq<real>, ws: seq<real>, scale: real) {
    |us| == |ws| && forall i :: 0 <= i < |us| ==> ws[i] == scale * us[i]
  }

  lemma CenteredCopy(xs: seq<real>, scale: real, shift: real)
    requires xs != []
    ensures Scaled(Centered(xs), Centered(Copy(xs, scale, shift)), scale)
  {
    MeanCopy(xs, scale, shift);
    forall i | 0 <= i < |xs|
      ensures Centered(Copy(xs, scale, shift))[i] == scale * Centered(xs)[i]
    {
      Spread(scale, xs[i], Mean(xs), shift);
    }
  }

  lemma Spread(scale: real, x: real, mean: real, shift: real)
    ensures (scale * x + shift) - (scale * mean + shift) == scale * (x - mean)
  {
  }

  lemma ScaledFront(us: seq<real>, ws: seq<real>, scale: real)
    requires Scaled(us, ws, scale) && us != []
    ensures var n := |us| - 1; Scaled(us[..n], ws[..n], scale) && ws[n] == scale * us[n]
  {
  }

  lemma {:induction false} DotScaled(us: seq<real>, vs: seq<real>, ws: seq<real>, scale: real, plain: real,
                                     scaled: real)
    requires |us| == |vs| && Scaled(vs, ws, scale) && plain == Dot(us, vs) && scaled == Dot(us, ws)
    ensures scaled == scale * plain
  {
    if us == [] {
      assert plain == 0.0 && scaled == 0.0;
    } else {
      var n := |us| - 1;
      var p, q := Dot(us[..n], vs[..n]), Dot(us[..n], ws[..n]);
      ScaledFront(vs, ws, scale);
      DotScaled(us[..n], vs[..n], ws[..n], scale, p, q);
      PullOut(scale, p, us[n], vs[n], q, ws[n]);
    }
  }

  lemma PullOut(scale: real, p: real, u: real, v: real, q: real, w: real)
    requires q == scale * p && w == scale * v
    ensures q + u * w == scale * (p + u * v)
  {
  }

  lemma {:induction false} DotCommutes(us: seq<real>, vs: seq<real>)
    requires |us| == |vs|
    ensures Dot(us, vs) == Dot(vs, us)
  {
    if us != [] {
      DotCommutes(us[..|us| - 1], vs[..|vs| - 1]);
    }
  }

  lemma ScaledPowers(us: seq<real>, ws: seq<real>, scale: real, before: real, across: real, after: real)
    requires Scaled(us, ws, scale) && before == Dot(us, us) && across == Dot(us, ws) && after == Dot(ws, ws)
    ensures across == scale * before && after == scale * across
  {
    DotCommutes(ws, us);
    DotScaled(us, us, ws, scale, before, across);
    DotScaled(ws, us, ws, scale, across, after);
  }

  lemma PowersOf(xs: seq<real>, ys: seq<real>, scale: real)
    requires |xs| == |ys| && Scaled(Centered(xs), Centered(ys), scale)
    ensures Numerator(xs, ys) == scale * Power(xs) && Power(ys) == scale * Numerator(xs, ys)
  {
    ScaledPowers(Centered(xs), Centered(ys), scale, Power(xs), Numerator(xs, ys), Power(ys));
  }

  lemma CopyPowers(xs: seq<real>, scale: real, shift: real)
    requires xs != []
    ensures Numerator(xs, Copy(xs, scale, shift)) == scale * Power(xs)
    ensures Power(Copy(xs, scale, shift)) == scale * Numerator(xs, Copy(xs, scale, shift))
  {
    CenteredCopy(xs, scale, shift);
    PowersOf(xs, Copy(xs, scale, shift), scale);
  }

  lemma RootOfCopy(n: real, l: real, r: real, scale: real, root: real -> real)
    requires IsRoot(root) && l > 0.0 && n > 0.0 && n == scale * l && r == scale * n
    ensures l * r == n * n && root(l * r) == n
  {
    assert l * r == l * scale * n == n * n;
    var square := PositiveTimes(n, n);
    RootUnique(root(square), n);
  }

  lemma RootUnique(a: real, b: real)
    requires a >= 0.0 && b > 0.0 && a * a == b * b
    ensures a == b
  {
    if a < b {
      Ordered(a, b);
    } else if b < a {
      SquareGrows(b, a);
    }
  }

  lemma Ordered(a: real, b: real)
    requires 0.0 <= a < b
    ensures a * a < b * b
  {
    if a > 0.0 {
      SquareGrows(a, b);
    } else {
      ZeroSquare(a);
      var square := PositiveTimes(b, b);
    }
  }

  lemma DivideSelf(x: real)
    requires x > 0.0
    ensures x / x == 1.0
  {
  }

  lemma ScoreOfCopy(n: real, l: real, r: real, scale: real, root: real -> real)
    requires IsRoot(root) && l > 0.0 && r > 0.0 && n > 0.0 && n == scale * l && r == scale * n
    ensures Score(n, l, r, root) == 1.0
  {
    RootOfCopy(n, l, r, scale, root);
    DivideSelf(n);
  }

  /** A louder, softer or shifted copy of a frame that is not constant scores exactly one. */
  lemma CopyScoresOne(xs: seq<real>, scale: real, shift: real, root: real -> real)
    requires IsRoot(root) && Power(xs) != 0.0 && scale > 0.0
    ensures Correlation(xs, Copy(xs, scale, shift), root) == 1.0
  {
    assert xs != [] by {
      assert Centered([]) == [];
    }
    PowerNotNegative(xs);
    CopyPowers(xs, scale, shift);
    var n := PositiveTimes(scale, Power(xs));
    var r := PositiveTimes(scale, n);
    ScoreOfCopy(Numerator(xs, Copy(xs, scale, shift)), Power(xs), Power(Copy(xs, scale, shift)), scale, root);
  }

  lemma QuotientOne(n: real, d: real)
    requires d > 0.0 && n / d == 1.0
    ensures n == d
  {
    assert n == (n / d) * d;
  }

  lemma ScoreOne(n: real, l: real, r: real, root: real -> real)
    requires IsRoot(root) && l > 0.0 && r > 0.0 && Score(n, l, r, root) == 1.0
    ensures n > 0.0 && n * n == l * r
  {
    RootPositive(l, r, root);
    QuotientOne(n, root(l * r));
  }

  lemma ExactlyOne(left: seq<real>, right: seq<real>, root: real -> real)
    requires IsRoot(root) && Correlation(left, right, root) == 1.0
    ensures left != [] && |left| == |right| && Power(left) > 0.0 && Numerator(left, right) > 0.0
    ensures Numerator(left, right) * Numerator(left, right) == Power(left) * Power(right)
  {
    PowerNotNegative(left);
    PowerNotNegative(right);
    ScoreOne(Numerator(left, right), Power(left), Power(right), root);
  }

  lemma MinimumZero(a: real, b: real, c: real)
    requires a > 0.0 && b * b == a * c
    ensures Quadratic(-b / a, a, b, c) == 0.0
  {
    QuadraticAtMinimum(a, b, c);
    Cancel(a, b * b, c);
  }

  lemma RootZero(us: seq<real>, vs: seq<real>, t: real)
    requires |us| == |vs| && Quadratic(t, Dot(us, us), Dot(us, vs), Dot(vs, vs)) == 0.0
    ensures forall i :: 0 <= i < |us| ==> t * us[i] + vs[i] == 0.0
  {
    CombineSquares(us, vs, t);
    CombinedZero(us, vs, t);
  }

  lemma ResidueZero(us: seq<real>, vs: seq<real>, a: real, b: real)
    requires |us| == |vs| && a == Dot(us, us) && b == Dot(us, vs) && a > 0.0 && b * b == a * Dot(vs, vs)
    ensures forall i :: 0 <= i < |us| ==> -b / a * us[i] + vs[i] == 0.0
  {
    MinimumZero(a, b, Dot(vs, vs));
    RootZero(us, vs, -b / a);
  }

  lemma CombinedZero(us: seq<real>, vs: seq<real>, t: real)
    requires |us| == |vs| && Dot(Combine(us, vs, t), Combine(us, vs, t)) == 0.0
    ensures forall i :: 0 <= i < |us| ==> t * us[i] + vs[i] == 0.0
  {
    var w := Combine(us, vs, t);
    SquaresZero(w);
    forall i | 0 <= i < |us|
      ensures t * us[i] + vs[i] == 0.0
    {
      assert w[i] == 0.0;
    }
  }

  lemma Cancel(a: real, bb: real, c: real)
    requires a > 0.0 && bb == a * c
    ensures c - bb / a == 0.0
  {
    assert bb / a == c;
  }

  lemma Unspread(a: real, b: real, l: real, lm: real, r: real, rm: real)
    requires a > 0.0 && -b / a * (l - lm) + (r - rm) == 0.0
    ensures r == b / a * l + (rm - b / a * lm)
  {
    assert -b / a == -(b / a);
    var s := b / a;
    assert -s * (l - lm) == -(s * l) + s * lm;
  }

  lemma CopyOf(left: seq<real>, right: seq<real>, a: real, b: real, scale: real, shift: real)
    requires |left| == |right| && left != [] && a > 0.0 && scale == b / a && shift == Mean(right) - b / a * Mean(left)
    requires forall i :: 0 <= i < |left| ==> -b / a * Centered(left)[i] + Centered(right)[i] == 0.0
    ensures right == Copy(left, scale, shift)
  {
    var copy := Copy(left, scale, shift);
    forall i | 0 <= i < |left|
      ensures right[i] == copy[i]
    {
      assert -b / a * Centered(left)[i] + Centered(right)[i] == 0.0;
      Unspread(a, b, left[i], Mean(left), right[i], Mean(right));
    }
  }

  lemma Fit(left: seq<real>, right: seq<real>, a: real, b: real) returns (scale: real, shift: real)
    requires |left| == |right| && a == Dot(Centered(left), Centered(left)) && b == Dot(Centered(left), Centered(right))
    requires a > 0.0 && b > 0.0 && b * b == a * Dot(Centered(right), Centered(right))
    ensures scale > 0.0 && right == Copy(left, scale, shift)
  {
    ResidueZero(Centered(left), Centered(right), a, b);
    scale, shift := b / a, Mean(right) - b / a * Mean(left);
    CopyOf(left, right, a, b, scale, shift);
  }

  /** And nothing but such a copy does. */
  lemma OneMeansCopy(left: seq<real>, right: seq<real>, root: real -> real) returns (scale: real, shift: real)
    requires IsRoot(root) && Correlation(left, right, root) == 1.0
    ensures scale > 0.0 && right == Copy(left, scale, shift)
  {
    ExactlyOne(left, right, root);
    scale, shift := Fit(left, right, Power(left), Numerator(left, right));
  }

  // The loops.

  method MeanOf(xs: seq<real>) returns (mean: real)
    requires xs != []
    ensures mean == Mean(xs)
  {
    mean := 0.0;
    for index := 0 to |xs|
      invariant mean == Sum(xs[..index])
    {
      assert xs[..index + 1][..index] == xs[..index];
      mean := mean + xs[index];
    }
    assert xs[..|xs|] == xs;
    mean := mean / |xs| as real;
  }

  lemma DotNext(us: seq<real>, vs: seq<real>, n: nat, u: real, v: real)
    requires |us| == |vs| && n < |us| && us[n] == u && vs[n] == v
    ensures Dot(us[..n + 1], vs[..n + 1]) == Dot(us[..n], vs[..n]) + u * v
  {
    assert us[..n + 1][..n] == us[..n] && vs[..n + 1][..n] == vs[..n];
  }

  method Accumulate(left: seq<real>, right: seq<real>, leftMean: real, rightMean: real)
    returns (numerator: real, leftPower: real, rightPower: real)
    requires |left| == |right| && leftMean == Mean(left) && rightMean == Mean(right)
    ensures numerator == Numerator(left, right) && leftPower == Power(left) && rightPower == Power(right)
  {
    numerator, leftPower, rightPower := 0.0, 0.0, 0.0;
    ghost var us, vs := Centered(left), Centered(right);
    for index := 0 to |left|
      invariant numerator == Dot(us[..index], vs[..index])
      invariant leftPower == Dot(us[..index], us[..index])
      invariant rightPower == Dot(vs[..index], vs[..index])
    {
      var leftValue := left[index] - leftMean;
      var rightValue := right[index] - rightMean;
      DotNext(us, vs, index, leftValue, rightValue);
      DotNext(us, us, index, leftValue, leftValue);
      DotNext(vs, vs, index, rightValue, rightValue);
      numerator := numerator + leftValue * rightValue;
      leftPower := leftPower + leftValue * leftValue;
      rightPower := rightPower + rightValue * rightValue;
    }
    assert us[..|us|] == us && vs[..|vs|] == vs;
  }

  method NormalizedCorrelation(left: seq<real>, right: seq<real>, root: real -> real) returns (score: real)
    requires IsRoot(root)
    ensures score == Correlation(left, right, root)
  {
    if |left| == 0 || |left| != |right| {
      return 0.0;
    }
    var leftMean := MeanOf(left);
    var rightMean := MeanOf(right);
    var numerator, leftPower, rightPower := Accumulate(left, right, leftMean, rightMean);
    if leftPower == 0.0 || rightPower == 0.0 {
      return 0.0;
    }
    PowerNotNegative(left);
    PowerNotNegative(right);
    score := Score(numerator, leftPower, rightPower, root);
  }

  /** The scores of the frames of a recording at one alignment. */
  datatype Scores = Scores(active: nat, comparable: nat, matched: nat, sum: real, compared: nat) {
    ghost predicate Within(samples: nat) {
      && matched <= comparable <= active
      && 0.0 <= sum <= comparable as real
      && compared <= samples
    }

    /** The part of the active frames that matched. */
    function Coverage(): real {
      if active == 0 then 0.0 else matched as real / active as real
    }

    /** The mean score of the frames that could be compared. */
    function Similarity(): real {
      if comparable == 0 then 0.0 else sum / comparable as real
    }
  }

  function Clamp(score: real): real {
    if score < 0.0 then 0.0 else if score > 1.0 then 1.0 else score
  }

  /** Whether a frame of expected audio is louder than silence. */
  predicate Loud(frame: seq<real>, silence: real, root: real -> real) {
    frame != [] && root(Dot(frame, frame) / |frame| as real) > silence
  }

  /** What one frame adds to the scores. */
  function AddFrame(s: Scores, frame: seq<real>, received: seq<real>, start: int, silence: real, threshold: real,
                    root: real -> real): Scores
    requires IsRoot(root)
  {
    if !Loud(frame, silence, root) then s
    else if start < 0 || start + |frame| > |received| then s.(active := s.active + 1)
    else
      var score := Clamp(Correlation(frame, received[start..start + |frame|], root));
      Scores(s.active + 1, s.comparable + 1, s.matched + (if score >= threshold then 1 else 0), s.sum + score,
             s.compared + |frame|)
  }

  /** The scores of the frames from a position on; a last frame of less than half a frame does not count. */
  function ScoreFrom(s: Scores, expected: seq<real>, received: seq<real>, position: nat, size: nat, offset: int,
                     silence: real, threshold: real, root: real -> real): Scores
    requires IsRoot(root) && size > 0
    decreases |expected| - position
  {
    if position >= |expected| then s
    else
      var end := Min(position + size, |expected|);
      if end - position < size / 2 then s
      else ScoreFrom(AddFrame(s, expected[position..end], received, position + offset, silence, threshold, root),
                     expected, received, position + size, size, offset, silence, threshold, root)
  }

  lemma AddFrameWithin(s: Scores, frame: seq<real>, received: seq<real>, start: int, silence: real, threshold: real,
                       root: real -> real, samples: nat)
    requires IsRoot(root) && s.Within(samples)
    ensures AddFrame(s, frame, received, start, silence, threshold, root).Within(samples + |frame|)
  {
  }

  /** One turn of the loop: a frame is counted, compared and matched, or not. */
  method ScoreFrame(s: Scores, frame: seq<real>, received: seq<real>, start: int, silence: real, threshold: real,
                    root: real -> real)
    returns (scores: Scores)
    requires IsRoot(root)
    ensures scores == AddFrame(s, frame, received, start, silence, threshold, root)
  {
    scores := s;
    if !Loud(frame, silence, root) {
      return;
    }
    scores := scores.(active := scores.active + 1);
    var end := start + |frame|;
    if start < 0 || end > |received| {
      return;
    }
    var score := NormalizedCorrelation(frame, received[start..end], root);
    score := Clamp(score);
    var matched := if score >= threshold then 1 else 0;
    scores := Scores(scores.active, scores.comparable + 1, scores.matched + matched, scores.sum + score,
                     scores.compared + |frame|);
  }

  method ScoreFrames(expected: seq<real>, received: seq<real>, size: nat, offset: int, silence: real, threshold: real,
                     root: real -> real)
    returns (scores: Scores)
    requires IsRoot(root) && size > 0
    ensures scores == ScoreFrom(Scores(0, 0, 0, 0.0, 0), expected, received, 0, size, offset, silence, threshold, root)
    ensures scores.Within(|expected|)
  {
    var start := 0;
    scores := Scores(0, 0, 0, 0.0, 0);
    while start < |expected|
      invariant start >= 0
      invariant ScoreFrom(Scores(0, 0, 0, 0.0, 0), expected, received, 0, size, offset, silence, threshold, root)
             == ScoreFrom(scores, expected, received, start, size, offset, silence, threshold, root)
      invariant scores.Within(Min(start, |expected|))
    {
      var end := Min(start + size, |expected|);
      if end - start < size / 2 {
        break;
      }
      AddFrameWithin(scores, expected[start..end], received, start + offset, silence, threshold, root, start);
      scores := ScoreFrame(scores, expected[start..end], received, start + offset, silence, threshold, root);
      start := start + size;
    }
  }

  /** Coverage and similarity are parts of a whole. */
  lemma ScoresAreParts(s: Scores, samples: nat)
    requires s.Within(samples)
    ensures 0.0 <= s.Coverage() <= 1.0 && 0.0 <= s.Similarity() <= 1.0
  {
    if s.active > 0 {
      PartOf(s.matched as real, s.active as real);
    }
    if s.comparable > 0 {
      PartOf(s.sum, s.comparable as real);
    }
  }

  lemma PartOf(part: real, whole: real)
    requires 0.0 <= part <= whole && whole > 0.0
    ensures 0.0 <= part / whole <= 1.0
  {
  }
}
