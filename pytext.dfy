/** Python text and byte operations that the supervision core relies on,
    with CPython 3 semantics for the cases the core uses: `str.isspace`,
    `str.strip`, `str.replace(p, "")`, `str.split`, `re.split` on a
    character class, `str.startswith`, the `in` substring test and Qt's
    `QByteArray.trimmed`. It also defines `Count`, with which the proofs
    count recorded effects and events. */
module PyText {

  datatype Option<T> = None | Some(value: T)

  /** A byte, as held in a Python `bytes` object or a `QByteArray`. */
  newtype byte = x: int | 0 <= x < 256

  /** `str.isspace()` for one character: the characters CPython treats as
      white space (bidirectional class WS, B or S, or category Zs). */
  predicate IsSpace(c: char) {
    c == ' ' || ('\t' <= c <= '\r') || ('\U{1c}' <= c <= '\U{1f}')
    || c == '\U{85}' || c == '\U{a0}' || c == '\U{1680}'
    || ('\U{2000}' <= c <= '\U{200a}') || c == '\U{2028}' || c == '\U{2029}'
    || c == '\U{202f}' || c == '\U{205f}' || c == '\U{3000}'
  }

  /** The white space `QByteArray.trimmed()` removes: ASCII `\t \n \v \f \r` and space. */
  predicate IsAsciiSpace(b: byte) {
    b == 32 || (9 <= b <= 13)
  }

  /** The same two classes as sets, the form the stripping functions take. */
  const Spaces: set<char> := set c: char | IsSpace(c)
  const AsciiSpaces: set<byte> := set b: byte | IsAsciiSpace(b)

  // ---------------------------------------------------------------------------
  // Stripping

  /** The number of leading elements of `s` that are in `ws`: the first
      element after them is not. */
  function Leading<T>(s: seq<T>, ws: set<T>): (n: nat)
    ensures n <= |s|
    ensures n == |s| || s[n] !in ws
    decreases |s|
  {
    if s != [] && s[0] in ws then 1 + Leading(s[1..], ws) else 0
  }

  /** The number of trailing elements of `s` that are in `ws`: the last
      element before them is not. */
  function Trailing<T>(s: seq<T>, ws: set<T>): (n: nat)
    ensures n <= |s|
    ensures n == |s| || s[|s| - n - 1] !in ws
    decreases |s|
  {
    if s != [] && s[|s| - 1] in ws then 1 + Trailing(s[..|s| - 1], ws) else 0
  }

  /** Every element `Leading` counts is in `ws`. */
  lemma {:induction false} LeadingIn<T>(s: seq<T>, ws: set<T>)
    ensures forall k :: 0 <= k < Leading(s, ws) ==> s[k] in ws
    decreases |s|
  {
    if s != [] && s[0] in ws {
      LeadingIn(s[1..], ws);
      forall k | 0 <= k < Leading(s, ws) ensures s[k] in ws {
        if k > 0 {
          assert s[k] == s[1..][k - 1];
        }
      }
    }
  }

  /** Every element `Trailing` counts is in `ws`. */
  lemma {:induction false} TrailingIn<T>(s: seq<T>, ws: set<T>)
    ensures forall k :: |s| - Trailing(s, ws) <= k < |s| ==> s[k] in ws
    decreases |s|
  {
    if s != [] && s[|s| - 1] in ws {
      var init := s[..|s| - 1];
      TrailingIn(init, ws);
      forall k | |s| - Trailing(s, ws) <= k < |s| ensures s[k] in ws {
        if k < |s| - 1 {
          assert s[k] == init[k];
        }
      }
    }
  }

  /** Neither end of `s` is in `ws`. */
  predicate Stripped<T>(s: seq<T>, ws: set<T>) {
    s == [] || (s[0] !in ws && s[|s| - 1] !in ws)
  }

  /** The number of leading elements `Strip` removes. */
  function StripStart<T>(s: seq<T>, ws: set<T>): (a: nat)
    ensures a <= |s|
  {
    Leading(s, ws)
  }

  /** `str.strip()` (with `ws := Spaces`) and `QByteArray.trimmed()`
      (with `ws := AsciiSpaces`): `s` with its leading and trailing
      white space removed. The result is the slice of `s` that starts at
      `StripStart(s, ws)`, and neither end of it is white space. */
  function Strip<T>(s: seq<T>, ws: set<T>): (r: seq<T>)
    ensures Stripped(r, ws)
    ensures StripStart(s, ws) + |r| <= |s|
    ensures r == s[StripStart(s, ws)..StripStart(s, ws) + |r|]
  {
    var a := Leading(s, ws);
    TrailingOfUnstripped(s[a..], ws);
    s[a..|s| - Trailing(s[a..], ws)]
  }

  /** A sequence that does not start with an element of `ws` keeps that
      element when its trailing elements in `ws` are removed. */
  lemma {:induction false} TrailingBelow<T>(u: seq<T>, ws: set<T>)
    requires u != [] && u[0] !in ws
    ensures Trailing(u, ws) < |u|
    decreases |u|
  {
    if u[|u| - 1] in ws {
      var init := u[..|u| - 1];
      assert |u| > 1;
      assert init[0] == u[0];
      TrailingBelow(init, ws);
    }
  }

  /** Removing the trailing white space of a sequence that does not start
      with white space leaves a stripped sequence. */
  lemma TrailingOfUnstripped<T>(u: seq<T>, ws: set<T>)
    requires u == [] || u[0] !in ws
    ensures Stripped(u[..|u| - Trailing(u, ws)], ws)
  {
    if u != [] {
      TrailingBelow(u, ws);
    }
  }

  /** What `Strip` removes is white space only. */
  lemma StripRemovesSpace<T>(s: seq<T>, ws: set<T>)
    ensures forall k :: 0 <= k < StripStart(s, ws) ==> s[k] in ws
    ensures forall k :: StripStart(s, ws) + |Strip(s, ws)| <= k < |s| ==> s[k] in ws
  {
    var a := Leading(s, ws);
    var u := s[a..];
    var t := Trailing(u, ws);
    LeadingIn(s, ws);
    TrailingIn(u, ws);
    forall k | |s| - t <= k < |s| ensures s[k] in ws {
      assert s[k] == u[k - a];
    }
  }

  /** Stripping a string that is already stripped changes nothing. */
  lemma {:induction false} StripStripped<T>(s: seq<T>, ws: set<T>)
    requires Stripped(s, ws)
    ensures Strip(s, ws) == s
  {
    assert Leading(s, ws) == 0;
    assert Trailing(s, ws) == 0;
  }

  // ---------------------------------------------------------------------------
  // Substrings

  /** `p` occurs in `s` at position `i`. */
  predicate OccursAt<T(==)>(s: seq<T>, p: seq<T>, i: nat) {
    i + |p| <= |s| && s[i..i + |p|] == p
  }

  /** Python's `p in s` for strings. */
  predicate Contains<T(==)>(s: seq<T>, p: seq<T>) {
    exists i: nat | i <= |s| :: OccursAt(s, p, i)
  }

  /** `s.startswith(p)`. */
  predicate StartsWith<T(==)>(s: seq<T>, p: seq<T>) {
    |p| <= |s| && s[..|p|] == p
  }

  /** `s.endswith(p)`. */
  predicate EndsWith<T(==)>(s: seq<T>, p: seq<T>) {
    |p| <= |s| && s[|s| - |p|..] == p
  }

  lemma OccursAtShift<T>(s: seq<T>, p: seq<T>, i: nat)
    requires s != []
    ensures OccursAt(s, p, i + 1) <==> OccursAt(s[1..], p, i)
  {
    if i + 1 + |p| <= |s| {
      assert s[i + 1..i + 1 + |p|] == s[1..][i..i + |p|];
    }
  }

  /** An occurrence inside a slice of `s` is an occurrence in `s`. */
  lemma {:induction false} ContainsSlice<T>(s: seq<T>, a: nat, b: nat, p: seq<T>)
    requires a <= b <= |s|
    requires Contains(s[a..b], p)
    ensures Contains(s, p)
  {
    var i: nat :| i <= |s[a..b]| && OccursAt(s[a..b], p, i);
    forall j | 0 <= j < |p| ensures s[a + i + j] == p[j] {
      assert s[a..b][i..i + |p|][j] == p[j];
    }
    assert s[a + i..a + i + |p|] == p;
    assert OccursAt(s, p, a + i);
  }

  // ---------------------------------------------------------------------------
  // Deleting every occurrence of a pattern

  /** `s.replace(p, "")`: scanning from the left, each non-overlapping
      occurrence of `p` is removed and the scan resumes after it. */
  function Delete<T(==)>(s: seq<T>, p: seq<T>): seq<T>
    requires p != []
    decreases |s|
  {
    if |s| < |p| then s
    else if s[..|p|] == p then Delete(s[|p|..], p)
    else [s[0]] + Delete(s[1..], p)
  }

  /** Deleting never lengthens; it keeps the length exactly when nothing
      occurs, and then it is the identity; whenever `p` occurs, the result
      is strictly shorter. */
  lemma {:induction false} DeleteLength<T>(s: seq<T>, p: seq<T>)
    requires p != []
    ensures |Delete(s, p)| <= |s|
    ensures Contains(s, p) <==> |Delete(s, p)| < |s|
    ensures !Contains(s, p) ==> Delete(s, p) == s
    decreases |s|
  {
    if |s| < |p| {
    } else if s[..|p|] == p {
      DeleteLength(s[|p|..], p);
      assert OccursAt(s, p, 0);
    } else {
      DeleteLength(s[1..], p);
      assert !OccursAt(s, p, 0);
      forall i: nat ensures OccursAt(s, p, i + 1) <==> OccursAt(s[1..], p, i) {
        OccursAtShift(s, p, i);
      }
      if Contains(s, p) {
        var i: nat :| OccursAt(s, p, i);
        assert i != 0;
        assert OccursAt(s[1..], p, i - 1);
      }
      if Contains(s[1..], p) {
        var i: nat :| OccursAt(s[1..], p, i);
        assert OccursAt(s, p, i + 1);
      }
    }
  }

  /** No occurrence of `p` can start in a prefix that lacks `p`'s first
      element, so deleting leaves that prefix in place. */
  lemma {:induction false} DeleteSkip<T>(a: seq<T>, b: seq<T>, p: seq<T>)
    requires p != [] && p[0] !in a
    ensures Delete(a + b, p) == a + Delete(b, p)
    decreases |a|
  {
    var s := a + b;
    if a == [] {
      assert s == b;
    } else if |s| >= |p| {
      assert s[0] == a[0];
      assert s[..|p|] != p by { assert s[..|p|][0] == a[0]; }
      assert a[1..] + b == s[1..];
      DeleteSkip(a[1..], b, p);
      assert Delete(s, p) == [a[0]] + (a[1..] + Delete(b, p));
      assert a == [a[0]] + a[1..];
    }
  }

  /** The left-to-right reading of `str.replace(p, "")`: when the leftmost
      occurrence of `p` follows `a`, the text before it is kept, that
      occurrence is removed, and deleting resumes right after it. */
  lemma DeleteFirst<T>(a: seq<T>, p: seq<T>, b: seq<T>)
    requires p != []
    requires forall j: nat :: j < |a| ==> !OccursAt(a + p + b, p, j)
    ensures Delete(a + p + b, p) == a + Delete(b, p)
  {
    var pb := p + b;
    assert a + p + b == a + pb;
    DeleteKeepsPrefix(a, pb, p);
    assert pb[..|p|] == p && pb[|p|..] == b;
  }

  /** No occurrence of `p` starts inside `a`, so deleting keeps `a` whole. */
  lemma {:induction false} DeleteKeepsPrefix<T>(a: seq<T>, b: seq<T>, p: seq<T>)
    requires p != []
    requires forall j: nat :: j < |a| ==> !OccursAt(a + b, p, j)
    ensures Delete(a + b, p) == a + Delete(b, p)
    decreases |a|
  {
    var s := a + b;
    if a == [] {
      assert s == b;
    } else {
      assert !OccursAt(s, p, 0);
      assert a[1..] + b == s[1..];
      forall j: nat | j < |a[1..]| ensures !OccursAt(a[1..] + b, p, j) {
        OccursAtShift(s, p, j);
      }
      DeleteKeepsPrefix(a[1..], b, p);
      if |s| >= |p| {
        assert Delete(s, p) == [a[0]] + (a[1..] + Delete(b, p));
      } else {
        assert Delete(b, p) == b;
      }
      assert a == [a[0]] + a[1..];
    }
  }

  // ---------------------------------------------------------------------------
  // Splitting

  /** The index of the first element of `s` in `seps`, or `|s|` if none. */
  function IndexOfAny(s: string, seps: set<char>): (i: nat)
    ensures i <= |s|
    ensures NoSeparator(s[..i], seps)
    ensures i < |s| ==> s[i] in seps
  {
    if s == [] then 0
    else if s[0] in seps then 0
    else 1 + IndexOfAny(s[1..], seps)
  }

  /** No character of `s` is a separator. */
  predicate NoSeparator(s: string, seps: set<char>) {
    forall k :: 0 <= k < |s| ==> s[k] !in seps
  }

  /** `s.split("\n")` when `seps == {'\n'}`, and `re.split("[...]", s)` for a
      character class `seps`: the maximal separator-free pieces of `s`,
      in order, including empty ones; there is always at least one. */
  function Split(s: string, seps: set<char>): (r: seq<string>)
    ensures |r| >= 1
    ensures forall k :: 0 <= k < |r| ==> NoSeparator(r[k], seps)
    decreases |s|
  {
    var i := IndexOfAny(s, seps);
    if i == |s| then [s] else [s[..i]] + Split(s[i + 1..], seps)
  }

  /** The first two pieces: there is a second piece exactly when a
      separator occurs, and then the first piece ends before the first
      separator and the second is the first piece of what follows it. */
  lemma {:induction false} SplitHead(s: string, seps: set<char>)
    ensures var i := IndexOfAny(s, seps);
      && (|Split(s, seps)| >= 2 <==> i < |s|)
      && (i < |s| ==> Split(s, seps)[0] == s[..i] && Split(s, seps)[1] == Split(s[i + 1..], seps)[0])
  {
    var i := IndexOfAny(s, seps);
    if i < |s| {
      assert Split(s, seps) == [s[..i]] + Split(s[i + 1..], seps);
    }
  }

  /** Joins pieces with a one-character separator, the inverse of `Split`. */
  function Join(parts: seq<string>, sep: char): string {
    if parts == [] then ""
    else if |parts| == 1 then parts[0]
    else parts[0] + [sep] + Join(parts[1..], sep)
  }

  /** Splitting loses nothing: joining the pieces on a separator gives `s`
      back when there is only one separator character. */
  lemma {:induction false} SplitJoin(s: string, sep: char)
    ensures Join(Split(s, {sep}), sep) == s
    decreases |s|
  {
    var i := IndexOfAny(s, {sep});
    if i < |s| {
      var rest := Split(s[i + 1..], {sep});
      var parts := [s[..i]] + rest;
      assert Split(s, {sep}) == parts;
      assert parts[1..] == rest;
      assert Join(parts, sep) == s[..i] + [sep] + Join(rest, sep);
      SplitJoin(s[i + 1..], sep);
      assert s == s[..i] + [sep] + s[i + 1..];
    }
  }

  /** A text with exactly one separator, at position `i`, splits into the
      two pieces around it. */
  lemma SplitTwo(a: string, sep: char, b: string, seps: set<char>)
    requires sep in seps && NoSeparator(a, seps) && NoSeparator(b, seps)
    ensures Split(a + [sep] + b, seps) == [a, b]
  {
    var s := a + [sep] + b;
    assert forall k :: 0 <= k < |a| ==> s[k] == a[k];
    assert s[|a|] == sep;
    assert IndexOfAny(s, seps) == |a|;
    assert s[..|a|] == a;
    assert s[|a| + 1..] == b;
    assert IndexOfAny(b, seps) == |b|;
  }

  // ---------------------------------------------------------------------------
  // Counting

  /** The number of occurrences of `x` in `s`; the proofs use it to count
      recorded effects and events. */
  function Count<T(==)>(s: seq<T>, x: T): nat {
    if s == [] then 0 else (if s[0] == x then 1 else 0) + Count(s[1..], x)
  }

  lemma {:induction false} CountAppend<T>(a: seq<T>, b: seq<T>, x: T)
    ensures Count(a + b, x) == Count(a, x) + Count(b, x)
  {
    if a != [] {
      assert (a + b)[1..] == a[1..] + b;
      CountAppend(a[1..], b, x);
    } else {
      assert a + b == b;
    }
  }

  lemma {:induction false} CountZero<T>(s: seq<T>, x: T)
    ensures Count(s, x) == 0 <==> x !in s
  {
    if s != [] {
      CountZero(s[1..], x);
      assert s == [s[0]] + s[1..];
    }
  }
}
