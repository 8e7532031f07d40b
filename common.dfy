/** Shared vocabulary of the model: optional values, results of operations
    that may raise, the Python exceptions the core can raise, and the
    foreign numerics (square root, sine, cosine, pi) the core borrows from
    NumPy, supplied as an oracle record whose axioms are stated by `Sound`. */
module Common {

  datatype Option<+T> = None | Some(value: T)

  /** The exceptions that reach `BallFinder.find_balls`. */
  datatype Error =
    | AssertionFailed    // a bare `assert`, whose `str(e)` is the empty string
    | IndexOutOfRange    // an IndexError from indexing a too-short array
    | NonFinite          // a NaN/inf value: SciPy's ValueError for a start point or residual, or a NaN result
    | Raised(msg: string)  // any other exception, with its message

  datatype Result<+T> = Success(value: T) | Failure(error: Error) {
    predicate IsFailure() { Failure? }
    function PropagateFailure<U>(): Result<U>
      requires Failure?
    {
      Failure(error)
    }
    function Extract(): T
      requires Success?
    {
      value
    }
  }

  /** `str(e)` of the exception. Only a bare assertion has an empty message;
      the texts of the other exceptions are placeholders. */
  function Message(e: Error): (s: string)
    ensures s == "" <==> e == AssertionFailed
  {
    match e
    case AssertionFailed => ""
    case IndexOutOfRange => "index out of range"
    case NonFinite => "value is not finite"
    case Raised(msg) => if msg == "" then "error" else msg
  }

  /** NumPy's transcendental functions, as parameters of the model. */
  datatype Math = Math(sqrt: real -> real, sin: real -> real, cos: real -> real, pi: real)

  /** The full turn, 2 pi radians. */
  function FullTurn(m: Math): real { 2.0 * m.pi }

  /** The facts about the oracle functions that the proofs rely on. */
  ghost predicate Sound(m: Math) {
    && (forall x :: 0.0 <= x ==> 0.0 <= m.sqrt(x) && m.sqrt(x) * m.sqrt(x) == x)
    && (forall t :: m.sin(t) * m.sin(t) + m.cos(t) * m.cos(t) == 1.0)
    && m.sin(0.0) == 0.0 && m.cos(0.0) == 1.0
    && m.sin(FullTurn(m)) == 0.0 && m.cos(FullTurn(m)) == 1.0
    && m.pi > 0.0
  }

  /** sin^2 t + cos^2 t = 1 at one angle. */
  lemma Pythagoras(m: Math, t: real)
    requires Sound(m)
    ensures m.sin(t) * m.sin(t) + m.cos(t) * m.cos(t) == 1.0
  {
  }

  /** The square root of zero is zero. */
  lemma SqrtZero(m: Math)
    requires Sound(m)
    ensures m.sqrt(0.0) == 0.0
  {
    SqrtUnique(m, 0.0, 0.0);
  }

  /** A non-negative number whose square is `x` is the oracle's root of `x`. */
  lemma SqrtUnique(m: Math, x: real, y: real)
    requires Sound(m) && 0.0 <= y && y * y == x
    ensures m.sqrt(x) == y
  {
    var s := m.sqrt(x);
    assert 0.0 <= s && s * s == x;
    assert (s - y) * (s + y) == 0.0;
    if s + y != 0.0 {
      assert s - y == ((s - y) * (s + y)) / (s + y);
    }
  }

  /** Python's `int(x)` on a float: truncation toward zero. */
  function Trunc(x: real): (n: int)
    ensures 0.0 <= x ==> n as real <= x < n as real + 1.0
    ensures x < 0.0 ==> n as real - 1.0 < x <= n as real
  {
    if 0.0 <= x then x.Floor else -((-x).Floor)
  }

  /** `math.ceil` on an exact real. */
  function Ceil(x: real): (n: int)
    ensures n as real - 1.0 < x <= n as real
  {
    -((-x).Floor)
  }

  /** A list comprehension `[f(x) for x in xs]` whose calls may raise: the
      calls run in order and the first exception is the result. */
  function MapAll<A, B>(f: A -> Result<B>, xs: seq<A>): (r: Result<seq<B>>)
    ensures r.Success? ==> |r.value| == |xs|
    decreases |xs|
  {
    if |xs| == 0 then Success([])
    else
      var ys :- MapAll(f, xs[..|xs| - 1]);
      var y :- f(xs[|xs| - 1]);
      Success(ys + [y])
  }

  /** One more element: its result is appended, or its exception ends the
      comprehension. */
  lemma MapAllAppendOne<A, B>(f: A -> Result<B>, xs: seq<A>, x: A)
    ensures MapAll(f, xs).Failure? ==> MapAll(f, xs + [x]) == MapAll(f, xs)
    ensures MapAll(f, xs).Success? && f(x).Failure? ==> MapAll(f, xs + [x]) == Failure(f(x).error)
    ensures MapAll(f, xs).Success? && f(x).Success? ==>
              MapAll(f, xs + [x]) == Success(MapAll(f, xs).value + [f(x).value])
  {
    assert (xs + [x])[..|xs|] == xs;
  }

  /** The comprehension succeeds exactly when every call does; then result i
      is that of element i, and otherwise the exception is that of the first
      element whose call raised. */
  lemma {:induction false} MapAllSpec<A, B>(f: A -> Result<B>, xs: seq<A>)
    ensures MapAll(f, xs).Success? <==> forall i :: 0 <= i < |xs| ==> f(xs[i]).Success?
    ensures MapAll(f, xs).Success? ==>
              forall i :: 0 <= i < |xs| ==> MapAll(f, xs).value[i] == f(xs[i]).value
    ensures MapAll(f, xs).Failure? ==>
              exists i :: 0 <= i < |xs| && f(xs[i]) == Failure(MapAll(f, xs).error)
                && forall j :: 0 <= j < i ==> f(xs[j]).Success?
    decreases |xs|
  {
    if |xs| > 0 {
      var front := xs[..|xs| - 1];
      MapAllSpec(f, front);
      assert forall i :: 0 <= i < |front| ==> front[i] == xs[i];
      if MapAll(f, front).Failure? {
        var i :| 0 <= i < |front| && f(front[i]) == Failure(MapAll(f, front).error)
                 && forall j :: 0 <= j < i ==> f(front[j]).Success?;
        assert f(xs[i]) == Failure(MapAll(f, xs).error);
      } else if f(xs[|xs| - 1]).Failure? {
        assert f(xs[|xs| - 1]) == Failure(MapAll(f, xs).error);
      }
    }
  }

  /** Python's `zip` of two lists: pairs up to the shorter length. */
  function Zip<A, B>(a: seq<A>, b: seq<B>): (z: seq<(A, B)>)
    ensures |z| == if |a| <= |b| then |a| else |b|
  {
    seq(if |a| <= |b| then |a| else |b|, i requires 0 <= i < |a| && i < |b| => (a[i], b[i]))
  }

  /** The elements of `xs` that `keep` accepts, in their order. */
  function Filter<T>(keep: T -> bool, xs: seq<T>): seq<T>
    decreases |xs|
  {
    if |xs| == 0 then []
    else
      var rest := Filter(keep, xs[..|xs| - 1]);
      if keep(xs[|xs| - 1]) then rest + [xs[|xs| - 1]] else rest
  }

  /** The positions in `xs` of the elements that `keep` accepts. */
  function FilterPositions<T>(keep: T -> bool, xs: seq<T>): seq<int>
    decreases |xs|
  {
    if |xs| == 0 then []
    else
      var rest := FilterPositions(keep, xs[..|xs| - 1]);
      if keep(xs[|xs| - 1]) then rest + [|xs| - 1] else rest
  }

  /** The filter keeps exactly the accepted elements, in order: the kept
      element j is the element at position `pos[j]`, the positions strictly
      increase, and a position occurs in `pos` exactly when its element is
      accepted. */
  lemma {:induction false} FilterSpec<T>(keep: T -> bool, xs: seq<T>)
    ensures var kept, pos := Filter(keep, xs), FilterPositions(keep, xs);
            && |kept| == |pos|
            && (forall j :: 0 <= j < |pos| ==> 0 <= pos[j] < |xs| && kept[j] == xs[pos[j]])
            && (forall j, k :: 0 <= j < k < |pos| ==> pos[j] < pos[k])
            && (forall i :: 0 <= i < |xs| ==> (keep(xs[i]) <==> i in pos))
    decreases |xs|
  {
    if |xs| > 0 {
      var front := xs[..|xs| - 1];
      FilterSpec(keep, front);
      assert forall i :: 0 <= i < |front| ==> front[i] == xs[i];
    }
  }

  /** Every kept element is accepted. */
  lemma FilterAccepted<T>(keep: T -> bool, xs: seq<T>)
    ensures forall j :: 0 <= j < |Filter(keep, xs)| ==> keep(Filter(keep, xs)[j])
  {
    FilterSpec(keep, xs);
    var pos := FilterPositions(keep, xs);
    forall j | 0 <= j < |Filter(keep, xs)|
      ensures keep(Filter(keep, xs)[j])
    {
      assert pos[j] in pos;
    }
  }
}
