/** Small value types and list and string operations shared by the rest of the model:
    the optional value, JavaScript's `Array.prototype.filter` by inequality,
    the add-or-remove toggle used by the filter editors, and the two string
    operations the screens use (`String.prototype.trim` and upper-casing the
    first character). */
module Common {

  datatype Option<+T> = None | Some(value: T)

  function Min(a: int, b: int): (r: int)
    ensures r <= a && r <= b
    ensures r == a || r == b
  {
    if a <= b then a else b
  }

  /** No element occurs twice. */
  ghost predicate NoDup<T>(xs: seq<T>)
  {
    forall i, j :: 0 <= i < j < |xs| ==> xs[i] != xs[j]
  }

  // ---------------------------------------------------------------------------
  // Removing by value
  // ---------------------------------------------------------------------------

  /** `xs.filter(y => y !== x)`: every occurrence of `x` removed, the rest kept in order. */
  function Without<T(==)>(xs: seq<T>, x: T): (r: seq<T>)
    ensures forall y :: y in r ==> y in xs && y != x
    ensures forall y :: y in xs && y != x ==> y in r
    ensures |r| <= |xs|
    ensures x in xs ==> |r| < |xs|
    ensures x !in xs ==> r == xs
  {
    if xs == [] then []
    else if xs[0] == x then Without(xs[1..], x)
    else [xs[0]] + Without(xs[1..], x)
  }

  /** Filtering distributes over concatenation, so the relative order of the kept elements is the original one. */
  lemma {:induction false} WithoutAppend<T>(a: seq<T>, b: seq<T>, x: T)
    ensures Without(a + b, x) == Without(a, x) + Without(b, x)
  {
    if a == [] {
      assert a + b == b;
    } else {
      assert (a + b)[0] == a[0];
      assert (a + b)[1..] == a[1..] + b;
      WithoutAppend(a[1..], b, x);
    }
  }

  /** Removing keeps the list free of duplicates. */
  lemma {:induction false} WithoutNoDup<T>(xs: seq<T>, x: T)
    requires NoDup(xs)
    ensures NoDup(Without(xs, x))
  {
    if xs != [] {
      assert NoDup(xs[1..]) by {
        forall i, j | 0 <= i < j < |xs[1..]| ensures xs[1..][i] != xs[1..][j] {
          assert xs[1..][i] == xs[i + 1] && xs[1..][j] == xs[j + 1];
        }
      }
      WithoutNoDup(xs[1..], x);
      var rest := Without(xs[1..], x);
      if xs[0] != x {
        assert xs[0] !in xs[1..] by {
          forall k | 0 <= k < |xs[1..]| ensures xs[1..][k] != xs[0] {
            assert xs[1..][k] == xs[k + 1];
          }
        }
        assert xs[0] !in rest;
        var r := [xs[0]] + rest;
        forall i, j | 0 <= i < j < |r| ensures r[i] != r[j] {
          if i == 0 {
            assert r[j] == rest[j - 1];
            assert r[j] in rest;
          } else {
            assert r[i] == rest[i - 1] && r[j] == rest[j - 1];
          }
        }
      }
    }
  }

  // ---------------------------------------------------------------------------
  // Toggling
  // ---------------------------------------------------------------------------

  /** The chip toggle of both filter editors: a listed value is removed (every occurrence), an unlisted one is appended. */
  function Toggle<T(==)>(xs: seq<T>, x: T): (r: seq<T>)
    ensures x in r <==> x !in xs
    ensures forall y :: y in xs && y != x ==> y in r
    ensures forall y :: y in r && y != x ==> y in xs
    ensures x in xs ==> |r| < |xs|
    ensures x !in xs ==> r == xs + [x]
  {
    if x in xs then Without(xs, x) else xs + [x]
  }

  /** Toggling an absent value twice gives the original list back. */
  lemma ToggleTwiceAbsent<T>(xs: seq<T>, x: T)
    requires x !in xs
    ensures Toggle(Toggle(xs, x), x) == xs
  {
    WithoutAppend(xs, [x], x);
    assert Without([x], x) == [];
    assert xs + [] == xs;
  }

  /** Toggling a listed value off and on again drops all its copies and puts one at the end. */
  lemma ToggleTwicePresent<T>(xs: seq<T>, x: T)
    requires x in xs
    ensures Toggle(Toggle(xs, x), x) == Without(xs, x) + [x]
  {
  }

  /** Toggling keeps a duplicate-free list duplicate-free. */
  lemma ToggleNoDup<T>(xs: seq<T>, x: T)
    requires NoDup(xs)
    ensures NoDup(Toggle(xs, x))
  {
    if x in xs {
      WithoutNoDup(xs, x);
    } else {
      var r := xs + [x];
      forall i, j | 0 <= i < j < |r| ensures r[i] != r[j] {
        if j == |xs| {
          assert r[i] == xs[i];
        } else {
          assert r[i] == xs[i] && r[j] == xs[j];
        }
      }
    }
  }

  // ---------------------------------------------------------------------------
  // String.prototype.trim
  // ---------------------------------------------------------------------------

  /** ECMAScript's WhiteSpace and LineTerminator code points, the characters `trim` strips. */
  predicate IsJsSpace(c: char)
  {
    var n := c as int;
    n == 0x09 || n == 0x0A || n == 0x0B || n == 0x0C || n == 0x0D || n == 0x20
    || n == 0xA0 || n == 0x1680 || (0x2000 <= n <= 0x200A)
    || n == 0x2028 || n == 0x2029 || n == 0x202F || n == 0x205F
    || n == 0x3000 || n == 0xFEFF
  }

  function TrimStart(s: string): (r: string)
    ensures |r| <= |s| && r == s[|s| - |r|..]
    ensures r == [] || !IsJsSpace(r[0])
    ensures forall k :: 0 <= k < |s| - |r| ==> IsJsSpace(s[k])
  {
    if s != [] && IsJsSpace(s[0]) then TrimStart(s[1..]) else s
  }

  function TrimEnd(s: string): (r: string)
    ensures |r| <= |s| && r == s[..|r|]
    ensures r == [] || !IsJsSpace(r[|r| - 1])
    ensures forall k :: |r| <= k < |s| ==> IsJsSpace(s[k])
  {
    if s != [] && IsJsSpace(s[|s| - 1]) then TrimEnd(s[..|s| - 1]) else s
  }

  /** `r` is `s` with `i` white-space characters cut from the front and only white space cut from the back. */
  ghost predicate IsTrimmedInfix(s: string, r: string, i: int)
  {
    && 0 <= i && i + |r| <= |s| && r == s[i..i + |r|]
    && (forall k :: 0 <= k < i ==> IsJsSpace(s[k]))
    && (forall k :: i + |r| <= k < |s| ==> IsJsSpace(s[k]))
  }

  /** `s.trim()`: the infix of `s` left after cutting white space from both ends, which neither starts nor ends with white space. */
  function Trim(s: string): (r: string)
    ensures exists i :: IsTrimmedInfix(s, r, i)
    ensures r == [] || (!IsJsSpace(r[0]) && !IsJsSpace(r[|r| - 1]))
  {
    var t := TrimStart(s);
    var r := TrimEnd(t);
    assert r == s[|s| - |t|..][..|r|];
    assert IsTrimmedInfix(s, r, |s| - |t|);
    r
  }

  /** A blank string trims to the empty string, and any other string does not. */
  lemma TrimEmptyIffBlank(s: string)
    ensures Trim(s) == [] <==> forall k :: 0 <= k < |s| ==> IsJsSpace(s[k])
  {
    var r := Trim(s);
    var i :| IsTrimmedInfix(s, r, i);
    if r != [] {
      assert r[0] == s[i];
      assert !IsJsSpace(s[i]);
    }
  }

  /** Trimming twice is trimming once. */
  lemma TrimIdempotent(s: string)
    ensures Trim(Trim(s)) == Trim(s)
  {
    var r := Trim(s);
    assert TrimStart(r) == r;
    assert TrimEnd(r) == r;
  }

  // ---------------------------------------------------------------------------
  // Capitalising
  // ---------------------------------------------------------------------------

  /** Upper-casing of the letters `a` to `z`; every other character is kept (see README for the gap to `toUpperCase`). */
  function AsciiUpper(c: char): (u: char)
    ensures 'a' <= c <= 'z' ==> 'A' <= u <= 'Z' && u as int - 'A' as int == c as int - 'a' as int
    ensures !('a' <= c <= 'z') ==> u == c
  {
    if 'a' <= c <= 'z' then (c as int - 'a' as int + 'A' as int) as char else c
  }

  /** Upper-cases only the first character; the empty string stays empty. */
  function Capitalize(s: string): (r: string)
    ensures |r| == |s|
    ensures s != [] ==> r[0] == AsciiUpper(s[0]) && r[1..] == s[1..]
  {
    if s == [] then [] else [AsciiUpper(s[0])] + s[1..]
  }
}
