/** Shared vocabulary of the samplers: Python values, exceptions, dicts, numpy helpers. */
module Common {

  /** A parameter value as the labs store it: a number or a string. */
  datatype Value = Num(x: real) | Text(s: string)

  /** The Python exceptions the core raises. */
  datatype Error =
    | IndexError
    | KeyError
    | ValueError
    | TypeError
    | ZeroDivisionError
    | AssertionError
    | NotImplementedError

  /** A computation that either returns a value or raises. */
  datatype Result<+T> = Ok(value: T) | Err(error: Error) {
    predicate IsFailure() { Err? }

    function PropagateFailure<U>(): Result<U>
      requires Err?
    {
      Err(error)
    }

    function Extract(): T
      requires Ok?
    {
      value
    }
  }

  /** A value handed to a parameter setter: a single value (strings included) or a list. */
  datatype Argument = Single(v: Value) | Several(vs: seq<Value>)

  datatype Option<+T> = None | Some(value: T)

  /** One sample of the parameter space: parameter name to value. */
  type Sample = map<string, Value>

  predicate Distinct<T(==)>(s: seq<T>) {
    forall i, j :: 0 <= i < j < |s| ==> s[i] != s[j]
  }

  /** A Python dict as the program sees it: its keys in iteration order, and the mapping itself. */
  datatype Dict<V> = Dict(keys: seq<string>, entries: map<string, V>) {
    ghost predicate Wf() {
      Distinct(keys) && entries.Keys == set k | k in keys
    }
  }

  /** The parameters of an epyc lab: each name maps to the list of its values. */
  type Space = Dict<seq<Value>>

  /** `d[k] = v` on a dict: an existing key keeps its place, a new one goes last. */
  function Store<V>(d: Dict<V>, k: string, v: V): (r: Dict<V>)
    requires d.Wf()
    ensures r.Wf()
    ensures r.entries == d.entries[k := v]
    ensures k in d.entries ==> r.keys == d.keys
    ensures k !in d.entries ==> r.keys == d.keys + [k]
  {
    if k in d.entries then Dict(d.keys, d.entries[k := v])
    else Dict(d.keys + [k], d.entries[k := v])
  }

  /** Python's `a // b` on integers: the quotient rounded towards minus infinity. */
  function FloorDiv(a: int, b: int): (q: int)
    requires b != 0
    ensures b > 0 ==> b * q <= a < b * q + b
    ensures b < 0 ==> b * q >= a > b * q + b
  {
    if b > 0 then a / b else (-a) / (-b)
  }

  /** The decomposition of a row number into a block and an offset inside the block. */
  lemma DivMod(q: nat, d: nat, r: nat)
    requires r < d
    ensures (q * d + r) / d == q
    ensures (q * d + r) % d == r
  {
    var a := q * d + r;
    var q', r' := a / d, a % d;
    assert a == d * q' + r' && 0 <= r' < d;
    if q' > q {
      MulDistributes(d, q, q' - q);
      MulAtLeast(d, q' - q);
      assert false;
    } else if q' < q {
      MulDistributes(d, q', q - q');
      MulAtLeast(d, q - q');
      assert false;
    }
  }

  /** A row between p * n and p * n + n - 1 lies in block p, at offset i - p * n. */
  lemma InBlock(i: nat, p: nat, n: nat)
    requires p * n <= i < p * n + n
    ensures i / n == p && i % n == i - p * n
  {
    DivMod(p, n, i - p * n);
  }

  lemma MulDistributes(d: int, a: int, b: int)
    ensures d * (a + b) == d * a + d * b
  {
  }

  lemma MulAtLeast(d: int, m: int)
    requires d >= 0 && m >= 1
    ensures d * m >= d
  {
  }

  lemma MulLeq(a: int, b: int, n: int)
    requires 0 <= a <= b && 0 <= n
    ensures a * n <= b * n
  {
    MulDistributes(n, a, b - a);
  }

  /** Row r of block p of a matrix made of k blocks of n rows lies inside the matrix. */
  lemma BlockBound(p: nat, r: nat, n: nat, k: nat)
    requires p < k && r < n
    ensures p * n + r < k * n
  {
    MulDistributes(n, p, 1);
    MulLeq(p + 1, k, n);
  }

  /** Row j of blocks n long is row j % n of block j / n. */
  lemma RowSplit(j: nat, n: nat)
    requires 0 < n
    ensures (j / n) * n + j % n == j && j % n < n
  {
  }

  /** A row inside a matrix of k blocks of n rows belongs to one of the k blocks. */
  lemma DivBelow(i: nat, n: nat, k: nat)
    requires 0 < n && i < k * n
    ensures i / n < k
  {
    if i / n >= k {
      MulLeq(k, i / n, n);
      assert false;
    }
  }

  /** The distance between neighbouring points of `numpy.linspace(lo, hi, n)`. */
  function LinspaceStepSize(lo: real, hi: real, n: nat): real {
    if n <= 1 then 0.0 else (hi - lo) / ((n - 1) as real)
  }

  /** Point `k` of `numpy.linspace(lo, hi, n)` over exact reals. */
  function LinspacePoint(lo: real, hi: real, n: nat, k: nat): real {
    lo + (k as real) * LinspaceStepSize(lo, hi, n)
  }

  /** `numpy.linspace(lo, hi, n)`: n evenly spaced points from lo to hi inclusive. */
  function Linspace(lo: real, hi: real, n: nat): (r: seq<real>)
    ensures |r| == n
    ensures forall k :: 0 <= k < n ==> r[k] == LinspacePoint(lo, hi, n, k)
  {
    seq(n, k requires 0 <= k < n => LinspacePoint(lo, hi, n, k))
  }

  /** The end points of `numpy.linspace` are the bounds it was given. */
  lemma LinspaceEnds(lo: real, hi: real, n: nat)
    requires n >= 2
    ensures Linspace(lo, hi, n)[0] == lo
    ensures Linspace(lo, hi, n)[n - 1] == hi
  {
    var d := (n - 1) as real;
    assert d * ((hi - lo) / d) == hi - lo;
  }

  /** For lo <= hi every point lies in [lo, hi] and the points never decrease. */
  lemma LinspaceBounded(lo: real, hi: real, n: nat)
    requires lo <= hi
    ensures forall k :: 0 <= k < n ==> lo <= Linspace(lo, hi, n)[k] <= hi
    ensures forall k, l :: 0 <= k <= l < n ==> Linspace(lo, hi, n)[k] <= Linspace(lo, hi, n)[l]
  {
    forall k, l | 0 <= k <= l < n
      ensures lo <= LinspacePoint(lo, hi, n, k) <= LinspacePoint(lo, hi, n, l) <= hi
    {
      if n > 1 {
        LinspaceStep(lo, hi, n, k, l);
      }
    }
  }

  lemma LinspaceStep(lo: real, hi: real, n: nat, k: nat, l: nat)
    requires lo <= hi && 1 < n && k <= l < n
    ensures lo <= LinspacePoint(lo, hi, n, k) <= LinspacePoint(lo, hi, n, l) <= hi
  {
    var d := (n - 1) as real;
    var step := LinspaceStepSize(lo, hi, n);
    assert step * d == hi - lo;
    assert step >= 0.0;
    MulMonotone(step, k as real, l as real);
    MulMonotone(step, l as real, d);
  }

  lemma MulMonotone(c: real, x: real, y: real)
    requires 0.0 <= c && 0.0 <= x <= y
    ensures 0.0 <= x * c <= y * c
  {
    assert y * c == x * c + (y - x) * c;
  }

  /** `u * (hi - lo) + lo`: a value of [0, 1] stretched onto [lo, hi], which it never leaves;
    * the ends 0 and 1 land on lo and hi. */
  function Stretch(u: real, lo: real, hi: real): (r: real)
    ensures lo <= hi && 0.0 <= u <= 1.0 ==> lo <= r <= hi
    ensures u == 0.0 ==> r == lo
    ensures u == 1.0 ==> r == hi
  {
    var d := hi - lo;
    ScaleEnds(u, d);
    if lo <= hi && 0.0 <= u <= 1.0 then
      UnitScale(lo, hi, u);
      u * d + lo
    else
      u * d + lo
  }

  lemma ScaleEnds(u: real, d: real)
    ensures u == 0.0 ==> u * d == 0.0
    ensures u == 1.0 ==> u * d == d
  {
  }

  lemma UnitScale(lo: real, hi: real, u: real)
    requires lo <= hi && 0.0 <= u <= 1.0
    ensures lo <= u * (hi - lo) + lo <= hi
  {
    MulMonotone(hi - lo, u, 1.0);
    assert 0.0 <= u * (hi - lo) <= hi - lo;
  }

  /** A result of `numpy.random.choice(range, len(range), replace=False)`: a reordering of indices 0..n-1. */
  ghost predicate IsPermutation(p: seq<nat>, n: nat) {
    |p| == n && (forall i :: 0 <= i < n ==> p[i] < n) && Distinct(p)
  }

  /** The values of `s` read in the order `p` gives. */
  function Shuffled(s: seq<Value>, p: seq<nat>): (r: seq<Value>)
    requires forall i :: 0 <= i < |p| ==> p[i] < |s|
    ensures |r| == |p|
    ensures forall i :: 0 <= i < |p| ==> r[i] == s[p[i]]
  {
    seq(|p|, i requires 0 <= i < |p| => s[p[i]])
  }

  /** Drawing every value of a range without replacement yields the range's multiset. */
  lemma {:induction false} ShuffledIsPermutation(s: seq<Value>, p: seq<nat>)
    requires IsPermutation(p, |s|)
    ensures multiset(Shuffled(s, p)) == multiset(s)
  {
    var n := |s|;
    if n == 0 {
      assert Shuffled(s, p) == [];
    } else {
      var v := p[n - 1];
      var s' := s[..v] + s[v + 1..];
      ShuffledDropMultiset(s, p);
      ShuffledIsPermutation(s', DropIndex(p, v));
      MultisetWithout(s, v);
    }
  }

  /** Taking the last drawn index out of the draw takes its value out of the multiset. */
  lemma ShuffledDropMultiset(s: seq<Value>, p: seq<nat>)
    requires |s| > 0 && IsPermutation(p, |s|)
    ensures var v := p[|s| - 1];
      |s[..v] + s[v + 1..]| == |s| - 1 && IsPermutation(DropIndex(p, v), |s| - 1) &&
      multiset(Shuffled(s, p)) == multiset(Shuffled(s[..v] + s[v + 1..], DropIndex(p, v))) + multiset{s[v]}
  {
    var v := p[|s| - 1];
    DropIndexIsPermutation(p, |s|);
    ShuffledDrop(s, p);
    MultisetSnoc(Shuffled(s[..v] + s[v + 1..], DropIndex(p, v)), s[v]);
  }

  /** Taking one element out of a sequence takes it out of its multiset. */
  lemma MultisetWithout(s: seq<Value>, v: nat)
    requires v < |s|
    ensures multiset(s) == multiset(s[..v] + s[v + 1..]) + multiset{s[v]}
  {
    assert s == s[..v] + [s[v]] + s[v + 1..];
  }

  lemma MultisetSnoc(r: seq<Value>, x: Value)
    ensures multiset(r + [x]) == multiset(r) + multiset{x}
  {
  }

  /** The first |p|-1 indices of p, renumbered as if index p[|p|-1] were removed from the range. */
  function DropIndex(p: seq<nat>, v: nat): (r: seq<nat>)
    requires |p| > 0
    ensures |r| == |p| - 1
  {
    seq(|p| - 1, i requires 0 <= i < |p| - 1 => if p[i] <= v then p[i] else p[i] - 1)
  }

  lemma DropIndexIsPermutation(p: seq<nat>, n: nat)
    requires n > 0 && IsPermutation(p, n)
    ensures IsPermutation(DropIndex(p, p[n - 1]), n - 1)
  {
    var v := p[n - 1];
    var p' := DropIndex(p, v);
    forall i | 0 <= i < n - 1
      ensures p[i] != v && p'[i] < n - 1
    {
      assert p[i] != p[n - 1];
    }
    forall i, j | 0 <= i < j < n - 1
      ensures p'[i] != p'[j]
    {
      assert p[i] != p[j];
      assert p[i] != v && p[j] != v;
    }
  }

  lemma ShuffledDrop(s: seq<Value>, p: seq<nat>)
    requires |s| > 0 && IsPermutation(p, |s|)
    ensures var v := p[|s| - 1];
      Shuffled(s, p) == Shuffled(s[..v] + s[v + 1..], DropIndex(p, v)) + [s[v]]
  {
    var n := |s|;
    var v := p[n - 1];
    DropIndexIsPermutation(p, n);
    var s' := s[..v] + s[v + 1..];
    var p' := DropIndex(p, v);
    forall i | 0 <= i < n - 1
      ensures Shuffled(s', p')[i] == s[p[i]]
    {
      assert p[i] != p[n - 1];
    }
  }
}
