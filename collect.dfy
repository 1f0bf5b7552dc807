/** Accumulating a list across a loop whose body may raise: the shape of every
    `formatted_text += ...` and `sources.append(...)` loop in the backend. The
    first item whose step raises ends the loop with that exception. */
module Collect {
  import opened PyJson

  /** The concatenation of `f(x)` over `s`, or the first exception raised. */
  function ConcatMap<T, P>(s: seq<T>, f: T -> Outcome<seq<P>>): Outcome<seq<P>>
    decreases |s|
  {
    if s == [] then Ok([])
    else
      var front :- ConcatMap(s[..|s| - 1], f);
      var last :- f(s[|s| - 1]);
      Ok(front + last)
  }

  /** The elements of `s` that satisfy `keep`, in order. */
  function Filter<T>(s: seq<T>, keep: T -> bool): seq<T>
    decreases |s|
  {
    if s == [] then []
    else Filter(s[..|s| - 1], keep) + (if keep(s[|s| - 1]) then [s[|s| - 1]] else [])
  }

  /** How many elements of `s` satisfy `p`. */
  function Count<P>(s: seq<P>, p: P -> bool): nat
    decreases |s|
  {
    if s == [] then 0 else Count(s[..|s| - 1], p) + (if p(s[|s| - 1]) then 1 else 0)
  }

  /** One loop iteration: the prefix grows by one item. */
  lemma ConcatMapStep<T, P>(s: seq<T>, i: nat, f: T -> Outcome<seq<P>>)
    requires i < |s|
    ensures ConcatMap(s[..i], f).Ok? && f(s[i]).Ok? ==>
      ConcatMap(s[..i + 1], f) == Ok(ConcatMap(s[..i], f).value + f(s[i]).value)
    ensures ConcatMap(s[..i], f).Ok? && f(s[i]).Raised? ==>
      ConcatMap(s[..i + 1], f) == Raised(f(s[i]).error)
  {
    assert s[..i + 1][..i] == s[..i];
  }

  /** A loop iteration whose step returns: the prefix grows by its pieces. */
  lemma ConcatMapExtend<T, P>(s: seq<T>, i: nat, f: T -> Outcome<seq<P>>, done: seq<P>)
    requires i < |s| && ConcatMap(s[..i], f) == Ok(done) && f(s[i]).Ok?
    ensures ConcatMap(s[..i + 1], f) == Ok(done + f(s[i]).value)
  {
    assert s[..i + 1][..i] == s[..i];
  }

  /** A loop iteration whose step raises: the whole loop raises that exception. */
  lemma ConcatMapStop<T, P>(s: seq<T>, i: nat, f: T -> Outcome<seq<P>>)
    requires i < |s| && ConcatMap(s[..i], f).Ok? && f(s[i]).Raised?
    ensures ConcatMap(s, f) == Raised(f(s[i]).error)
  {
    assert s[..i + 1][..i] == s[..i];
    ConcatMapRaisedPrefix(s, i + 1, f);
  }

  /** Once a prefix has raised, the whole loop raises the same exception. */
  lemma {:induction false} ConcatMapRaisedPrefix<T, P>(s: seq<T>, i: nat, f: T -> Outcome<seq<P>>)
    requires i <= |s| && ConcatMap(s[..i], f).Raised?
    ensures ConcatMap(s, f) == ConcatMap(s[..i], f)
    decreases |s| - i
  {
    if i == |s| {
      assert s[..i] == s;
    } else {
      assert s[..i + 1][..i] == s[..i];
      ConcatMapRaisedPrefix(s, i + 1, f);
    }
  }

  /** What the loop has appended when it stops: the outputs of the items before the
      first one whose step raises, or every output when none raises. */
  function ConcatMapDone<T, P>(s: seq<T>, f: T -> Outcome<seq<P>>): seq<P>
    decreases |s|
  {
    if s == [] then []
    else
      match ConcatMap(s[..|s| - 1], f)
      case Raised(_) => ConcatMapDone(s[..|s| - 1], f)
      case Ok(front) =>
        match f(s[|s| - 1])
        case Ok(last) => front + last
        case Raised(_) => front
  }

  /** A loop that does not raise has appended its whole result. */
  lemma ConcatMapDoneOk<T, P>(s: seq<T>, f: T -> Outcome<seq<P>>)
    requires ConcatMap(s, f).Ok?
    ensures ConcatMapDone(s, f) == ConcatMap(s, f).value
  {
  }

  /** A loop whose step raises at item `i` has appended exactly the outputs of the
      items before `i`. */
  lemma ConcatMapDoneAt<T, P>(s: seq<T>, i: nat, f: T -> Outcome<seq<P>>, done: seq<P>)
    requires i < |s| && ConcatMap(s[..i], f) == Ok(done) && f(s[i]).Raised?
    ensures ConcatMapDone(s, f) == done
  {
    ConcatMapDoneAfter(s, i, |s|, f, done);
    assert s[..|s|] == s;
  }

  lemma {:induction false} ConcatMapDoneAfter<T, P>(s: seq<T>, i: nat, j: nat, f: T -> Outcome<seq<P>>, done: seq<P>)
    requires i < j <= |s| && ConcatMap(s[..i], f) == Ok(done) && f(s[i]).Raised?
    ensures ConcatMapDone(s[..j], f) == done
    decreases j
  {
    var t := s[..j];
    assert t[..|t| - 1] == s[..j - 1];
    if j == i + 1 {
      assert t[|t| - 1] == s[i];
    } else {
      ConcatMapDoneAfter(s, i, j - 1, f, done);
      assert s[..j - 1][..i + 1] == s[..i + 1] && s[..i + 1][..i] == s[..i];
      ConcatMapStep(s[..j - 1], i, f);
      assert s[..j - 1][..i] == s[..i] && s[..j - 1][i] == s[i];
      ConcatMapRaisedPrefix(s[..j - 1], i + 1, f);
    }
  }

  /** Every piece of the result comes from some item's output. */
  lemma {:induction false} ConcatMapAll<T, P>(s: seq<T>, f: T -> Outcome<seq<P>>, p: P -> bool)
    requires forall x :: x in s && f(x).Ok? ==> forall y :: y in f(x).value ==> p(y)
    ensures ConcatMap(s, f).Ok? ==> forall y :: y in ConcatMap(s, f).value ==> p(y)
    decreases |s|
  {
    if s != [] {
      var init := s[..|s| - 1];
      assert forall x :: x in init ==> x in s;
      ConcatMapAll(init, f, p);
      assert s[|s| - 1] in s;
    }
  }

  /** Items whose step contributes nothing may be dropped beforehand. */
  lemma {:induction false} ConcatMapFilter<T, P>(s: seq<T>, f: T -> Outcome<seq<P>>, keep: T -> bool)
    requires forall x :: x in s && !keep(x) ==> f(x) == Ok([])
    ensures ConcatMap(Filter(s, keep), f) == ConcatMap(s, f)
    decreases |s|
  {
    if s != [] {
      var init, x := s[..|s| - 1], s[|s| - 1];
      assert forall y :: y in init ==> y in s;
      ConcatMapFilter(init, f, keep);
      assert x in s;
      if keep(x) {
        var t := Filter(init, keep) + [x];
        assert Filter(s, keep) == t;
        assert t[..|t| - 1] == Filter(init, keep);
      } else {
        assert Filter(s, keep) == Filter(init, keep);
        match ConcatMap(init, f)
        case Ok(a) => assert a + [] == a;
        case Raised(_) =>
      }
    }
  }

  lemma {:induction false} CountAppend<P>(a: seq<P>, b: seq<P>, p: P -> bool)
    ensures Count(a + b, p) == Count(a, p) + Count(b, p)
    decreases |b|
  {
    if b == [] {
      assert a + b == a;
    } else {
      var b' := b[..|b| - 1];
      CountAppend(a, b', p);
      assert (a + b)[..|a + b| - 1] == a + b';
    }
  }

  /** If each item yields at most `m` pieces of a kind, the loop yields at most
      `m` per item. */
  lemma {:induction false} ConcatMapCount<T, P>(s: seq<T>, f: T -> Outcome<seq<P>>, p: P -> bool, m: nat)
    requires forall x :: x in s && f(x).Ok? ==> Count(f(x).value, p) <= m
    ensures ConcatMap(s, f).Ok? ==> Count(ConcatMap(s, f).value, p) <= m * |s|
    decreases |s|
  {
    if s != [] {
      var init := s[..|s| - 1];
      assert forall x :: x in init ==> x in s;
      ConcatMapCount(init, f, p, m);
      if ConcatMap(s, f).Ok? {
        ConcatMapCountLast(s, f, p, m);
      }
    }
  }

  /** The step of `ConcatMapCount`: the last item adds at most `m`. */
  lemma ConcatMapCountLast<T, P>(s: seq<T>, f: T -> Outcome<seq<P>>, p: P -> bool, m: nat)
    requires s != [] && ConcatMap(s, f).Ok?
    requires Count(f(s[|s| - 1]).value, p) <= m
    requires Count(ConcatMap(s[..|s| - 1], f).value, p) <= m * (|s| - 1)
    ensures Count(ConcatMap(s, f).value, p) <= m * |s|
  {
    var a, b := ConcatMap(s[..|s| - 1], f).value, f(s[|s| - 1]).value;
    assert ConcatMap(s, f).value == a + b;
    CountAppend(a, b, p);
    assert m * |s| == m * (|s| - 1) + m;
  }

  /** Counting over pieces none of which has the property gives zero. */
  lemma {:induction false} CountNone<P>(s: seq<P>, p: P -> bool)
    requires forall y :: y in s ==> !p(y)
    ensures Count(s, p) == 0
    decreases |s|
  {
    if s != [] {
      assert forall y :: y in s[..|s| - 1] ==> y in s;
      CountNone(s[..|s| - 1], p);
    }
  }

  lemma CountSingle<P>(x: P, p: P -> bool)
    ensures Count([x], p) == if p(x) then 1 else 0
  {
    assert [x][..0] == [];
  }

  /** Pieces around a block that have none of the property do not change its count. */
  lemma CountFramed<P>(a: seq<P>, b: seq<P>, c: seq<P>, p: P -> bool)
    requires forall y :: y in a ==> !p(y)
    requires forall y :: y in c ==> !p(y)
    ensures Count(a + b + c, p) == Count(b, p)
  {
    CountNone(a, p);
    CountNone(c, p);
    CountAppend(a, b, p);
    CountAppend(a + b, c, p);
  }

  /** A single item whose step raises makes the whole loop raise. */
  lemma {:induction false} ConcatMapSomeRaised<T, P>(s: seq<T>, f: T -> Outcome<seq<P>>, i: nat)
    requires i < |s| && f(s[i]).Raised?
    ensures ConcatMap(s, f).Raised?
    decreases |s|
  {
    if i < |s| - 1 {
      ConcatMapSomeRaised(s[..|s| - 1], f, i);
    }
  }

  /** When every item yields exactly one piece, the loop yields one piece per item,
      in order. */
  lemma {:induction false} ConcatMapSingletons<T, P>(s: seq<T>, f: T -> Outcome<seq<P>>, g: T -> P)
    requires forall x :: x in s ==> f(x) == Ok([g(x)])
    ensures ConcatMap(s, f) == Ok(Project(s, g))
    decreases |s|
  {
    if s != [] {
      var init := s[..|s| - 1];
      assert forall x :: x in init ==> x in s;
      ConcatMapSingletons(init, f, g);
      var x := s[|s| - 1];
      assert x in s;
      assert ConcatMap(s, f) == Ok(Project(init, g) + [g(x)]);
      assert Project(init, g) + [g(x)] == Project(s, g);
    }
  }

  /** `h` applied to every element. */
  function Project<P, Q>(s: seq<P>, h: P -> Q): (r: seq<Q>)
    ensures |r| == |s| && forall i :: 0 <= i < |s| ==> r[i] == h(s[i])
  {
    seq(|s|, i requires 0 <= i < |s| => h(s[i]))
  }

  /** Two outcomes that raise the same exception, or agree once projected by `h`. */
  predicate SameUpTo<P, Q(==)>(a: Outcome<seq<P>>, b: Outcome<seq<P>>, h: P -> Q) {
    match a
    case Raised(e) => b == Raised(e)
    case Ok(x) => b.Ok? && Project(x, h) == Project(b.value, h)
  }

  /** Steps that agree up to `h` give loops that agree up to `h`. */
  lemma {:induction false} ConcatMapSameUpTo<T, P, Q>(s: seq<T>, f: T -> Outcome<seq<P>>, g: T -> Outcome<seq<P>>, h: P -> Q)
    requires forall x :: x in s ==> SameUpTo(f(x), g(x), h)
    ensures SameUpTo(ConcatMap(s, f), ConcatMap(s, g), h)
    decreases |s|
  {
    if s != [] {
      var init, x := s[..|s| - 1], s[|s| - 1];
      assert forall y :: y in init ==> y in s;
      ConcatMapSameUpTo(init, f, g, h);
      assert x in s;
      if ConcatMap(init, f).Ok? && f(x).Ok? {
        var a, b := ConcatMap(init, f).value, f(x).value;
        var a', b' := ConcatMap(init, g).value, g(x).value;
        assert Project(a + b, h) == Project(a, h) + Project(b, h);
        assert Project(a' + b', h) == Project(a', h) + Project(b', h);
      }
    }
  }

  lemma ProjectAppend<P, Q>(a: seq<P>, b: seq<P>, h: P -> Q)
    ensures Project(a + b, h) == Project(a, h) + Project(b, h)
  {
  }
}
