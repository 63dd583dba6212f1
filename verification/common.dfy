/** Shared value types and the string/number helpers the broadcast pipeline
    relies on: JavaScript's number-to-decimal conversion, `parseInt` without
    a radix, `String.prototype.includes`, and the whitespace class `\s`. */
module Common {

  datatype Option<T> = None | Some(value: T)

  /** A text parameter that is absent or empty, as JavaScript's `!x` sees it. */
  predicate Missing(x: Option<string>) {
    x.None? || x.value == ""
  }

  // ---------------------------------------------------------------------
  // Characters
  // ---------------------------------------------------------------------

  predicate IsDigit(c: char) { '0' <= c <= '9' }

  predicate IsHexDigit(c: char) { IsDigit(c) || 'a' <= c <= 'f' || 'A' <= c <= 'F' }

  function DigitValue(c: char): (d: nat)
    requires IsDigit(c)
    ensures d < 10
  {
    c as int - '0' as int
  }

  function HexValue(c: char): (d: nat)
    requires IsHexDigit(c)
    ensures d < 16
  {
    if IsDigit(c) then DigitValue(c)
    else if 'a' <= c <= 'f' then c as int - 'a' as int + 10
    else c as int - 'A' as int + 10
  }

  function DigitChar(d: nat): (c: char)
    requires d < 10
    ensures IsDigit(c) && DigitValue(c) == d
  {
    ('0' as int + d) as char
  }

  /** The characters matched by the JavaScript regular-expression class `\s`,
      which are also the ones `String.prototype.trim` removes. */
  predicate IsJsSpace(c: char) {
    c == ' ' || c == '\t' || c == '\n' || c == '\r' || c == '\U{000B}' || c == '\U{000C}'
    || c == '\U{00A0}' || c == '\U{1680}' || ('\U{2000}' <= c <= '\U{200A}')
    || c == '\U{2028}' || c == '\U{2029}' || c == '\U{202F}' || c == '\U{205F}'
    || c == '\U{3000}' || c == '\U{FEFF}'
  }

  // ---------------------------------------------------------------------
  // Number to decimal text (`${n}` / `String(n)` on an integer)
  // ---------------------------------------------------------------------

  predicate AllDigits(s: string) { forall i :: 0 <= i < |s| ==> IsDigit(s[i]) }

  function NatToString(n: nat): (s: string)
    ensures |s| >= 1 && AllDigits(s)
  {
    if n < 10 then [DigitChar(n)] else NatToString(n / 10) + [DigitChar(n % 10)]
  }

  function IntToString(n: int): (s: string)
    ensures |s| >= 1
    ensures forall i :: 0 <= i < |s| ==> IsDigit(s[i]) || (i == 0 && s[i] == '-')
  {
    if n < 0 then "-" + NatToString(-n) else NatToString(n)
  }

  /** Value of a string of decimal digits, most significant first. */
  function DigitsValue(s: string): nat
    requires AllDigits(s)
  {
    if s == [] then 0 else DigitsValue(s[..|s| - 1]) * 10 + DigitValue(s[|s| - 1])
  }

  function HexDigitsValue(s: string): nat
    requires forall i :: 0 <= i < |s| ==> IsHexDigit(s[i])
  {
    if s == [] then 0 else HexDigitsValue(s[..|s| - 1]) * 16 + HexValue(s[|s| - 1])
  }

  lemma {:induction false} NatToStringValue(n: nat)
    ensures DigitsValue(NatToString(n)) == n
  {
    if n >= 10 {
      var s := NatToString(n);
      assert s[..|s| - 1] == NatToString(n / 10);
      NatToStringValue(n / 10);
    }
  }

  // ---------------------------------------------------------------------
  // JavaScript parseInt(s) with no radix argument
  // ---------------------------------------------------------------------

  /** Number of leading characters of s that satisfy IsDigit. */
  function DigitRun(s: string): (k: nat)
    ensures k <= |s| && AllDigits(s[..k])
    ensures k < |s| ==> !IsDigit(s[k])
  {
    if s == [] || !IsDigit(s[0]) then 0
    else
      var k := 1 + DigitRun(s[1..]);
      assert forall i :: 1 <= i < k ==> s[..k][i] == s[1..][..k - 1][i - 1];
      k
  }

  function HexRun(s: string): (k: nat)
    ensures k <= |s| && forall i :: 0 <= i < k ==> IsHexDigit(s[i])
    ensures k < |s| ==> !IsHexDigit(s[k])
  {
    if s == [] || !IsHexDigit(s[0]) then 0 else 1 + HexRun(s[1..])
  }

  function TrimStart(s: string): (t: string)
    ensures t == [] || !IsJsSpace(t[0])
    ensures |t| <= |s| && t == s[|s| - |t|..]
  {
    if s != [] && IsJsSpace(s[0]) then TrimStart(s[1..]) else s
  }

  /** The digits after an optional sign: "0x"/"0X" and the longest run of hex
      digits, or else the longest run of decimal digits; None when there is no
      digit at all. */
  function ParseMagnitude(u: string): Option<nat>
  {
    if |u| >= 2 && u[0] == '0' && (u[1] == 'x' || u[1] == 'X') then
      var k := HexRun(u[2..]);
      if k == 0 then None else Some(HexDigitsValue(u[2..][..k]))
    else
      var k := DigitRun(u);
      if k == 0 then None else Some(DigitsValue(u[..k]))
  }

  /** parseInt without a radix: leading white space is skipped, then one
      optional sign, then the magnitude; None stands for NaN. */
  function ParseInt(s: string): Option<int>
  {
    var t := TrimStart(s);
    var negative := t != [] && t[0] == '-';
    var u := if t != [] && (t[0] == '-' || t[0] == '+') then t[1..] else t;
    match ParseMagnitude(u)
    case None => None
    case Some(m) => Some(if negative then -(m as int) else m as int)
  }

  /** A text whose first character is neither white space, nor a sign,
      nor a digit parses to NaN. */
  lemma NoLeadingDigit(s: string)
    requires s != [] && !IsJsSpace(s[0]) && !IsDigit(s[0]) && s[0] != '-' && s[0] != '+'
    ensures ParseInt(s) == None
  {
    assert TrimStart(s) == s;
    assert DigitRun(s) == 0;
  }

  lemma DigitRunAll(s: string)
    requires AllDigits(s)
    ensures DigitRun(s) == |s|
  {
  }

  lemma MagnitudeOfNatToString(m: nat)
    ensures ParseMagnitude(NatToString(m)) == Some(m)
  {
    var u := NatToString(m);
    NatToStringValue(m);
    DigitRunAll(u);
    assert u[..|u|] == u;
  }

  /** parseInt reads back what IntToString writes. */
  lemma {:induction false} ParseIntOfIntToString(n: int)
    ensures ParseInt(IntToString(n)) == Some(n)
  {
    var m: nat := if n < 0 then -n else n;
    var u := NatToString(m);
    MagnitudeOfNatToString(m);
    var s := IntToString(n);
    assert !IsJsSpace(s[0]);
    assert TrimStart(s) == s;
    if n < 0 {
      assert s[1..] == u;
    } else {
      assert s == u;
    }
  }

  lemma {:induction false} NatToStringLead(m: nat)
    ensures NatToString(m)[0] == '0' ==> m == 0
  {
    if m >= 10 {
      assert NatToString(m)[0] == NatToString(m / 10)[0];
      NatToStringLead(m / 10);
    }
  }

  lemma {:induction false} DigitRunPrefix(u: string, rest: string)
    requires AllDigits(u) && (rest == [] || !IsDigit(rest[0]))
    ensures DigitRun(u + rest) == |u|
  {
    if u != [] {
      assert (u + rest)[1..] == u[1..] + rest;
      DigitRunPrefix(u[1..], rest);
    }
  }

  lemma MagnitudePrefix(m: nat, rest: string)
    requires rest == [] || (!IsDigit(rest[0]) && rest[0] != 'x' && rest[0] != 'X')
    ensures ParseMagnitude(NatToString(m) + rest) == Some(m)
  {
    var u := NatToString(m);
    var v := u + rest;
    NatToStringLead(m);
    NatToStringValue(m);
    DigitRunPrefix(u, rest);
    assert v[..|u|] == u;
    if |v| >= 2 && v[0] == '0' {
      assert v[1] == rest[0];
    }
  }

  /** parseInt stops at the first character that cannot continue a number,
      so the decimal text of n followed by such a character reads back as n. */
  lemma ParseIntPrefix(n: int, rest: string)
    requires rest == [] || (!IsDigit(rest[0]) && rest[0] != 'x' && rest[0] != 'X')
    ensures ParseInt(IntToString(n) + rest) == Some(n)
  {
    if n < 0 {
      var m: nat := -n;
      assert IntToString(n) == "-" + NatToString(m);
      NegativePrefix(m, rest);
    } else {
      PositivePrefix(n, rest);
    }
  }

  lemma PositivePrefix(m: nat, rest: string)
    requires rest == [] || (!IsDigit(rest[0]) && rest[0] != 'x' && rest[0] != 'X')
    ensures ParseInt(NatToString(m) + rest) == Some(m)
  {
    var v := NatToString(m) + rest;
    MagnitudePrefix(m, rest);
    assert v[0] == NatToString(m)[0];
    UnsignedParse(v, m);
  }

  lemma NegativePrefix(m: nat, rest: string)
    requires rest == [] || (!IsDigit(rest[0]) && rest[0] != 'x' && rest[0] != 'X')
    ensures ParseInt("-" + NatToString(m) + rest) == Some(-(m as int))
  {
    var a := NatToString(m);
    var v := a + rest;
    MagnitudePrefix(m, rest);
    assert v[0] == a[0];
    SignedParse(v, m);
    assert "-" + a + rest == "-" + v;
  }

  lemma UnsignedParse(v: string, m: nat)
    requires v != [] && IsDigit(v[0]) && ParseMagnitude(v) == Some(m)
    ensures ParseInt(v) == Some(m)
  {
    assert !IsJsSpace(v[0]);
    assert TrimStart(v) == v;
    assert v[0] != '-' && v[0] != '+';
  }

  lemma SignedParse(v: string, m: nat)
    requires v != [] && IsDigit(v[0]) && ParseMagnitude(v) == Some(m)
    ensures ParseInt("-" + v) == Some(-(m as int))
  {
    var s := "-" + v;
    assert TrimStart(s) == s;
    assert s[1..] == v;
  }

  // ---------------------------------------------------------------------
  // Substrings
  // ---------------------------------------------------------------------

  predicate StartsWith(s: string, prefix: string) {
    |prefix| <= |s| && s[..|prefix|] == prefix
  }

  /** `s.includes(sub)`: sub occurs somewhere in s (the empty string always does). */
  predicate Contains(s: string, sub: string)
    decreases |s|
  {
    StartsWith(s, sub) || (s != [] && Contains(s[1..], sub))
  }

  predicate OccursAt(s: string, sub: string, i: int) {
    0 <= i <= |s| - |sub| && s[i..i + |sub|] == sub
  }

  /** Contains agrees with the positional definition of a substring. */
  lemma {:induction false} ContainsAt(s: string, sub: string)
    ensures Contains(s, sub) <==> exists i :: OccursAt(s, sub, i)
  {
    if StartsWith(s, sub) {
      assert OccursAt(s, sub, 0);
    } else if s == [] {
      assert forall i :: !OccursAt(s, sub, i);
    } else {
      ContainsAt(s[1..], sub);
      if Contains(s[1..], sub) {
        var i :| OccursAt(s[1..], sub, i);
        assert OccursAt(s, sub, i + 1);
      }
      if exists i :: OccursAt(s, sub, i) {
        var i :| OccursAt(s, sub, i);
        assert i != 0;
        assert OccursAt(s[1..], sub, i - 1);
      }
    }
  }

  // ---------------------------------------------------------------------
  // Enumerations of a set in some order (a store's SMEMBERS / HGETALL order)
  // ---------------------------------------------------------------------

  /** A non-empty set has a member (stated once so that `:|` can use it). */
  lemma NonEmptyHasMember<T>(s: set<T>)
    requires s != {}
    ensures exists x :: x in s
  {
    if forall x :: x !in s {
      assert false;
    }
  }

  predicate NoDuplicates<T(==)>(xs: seq<T>) {
    forall i, j :: 0 <= i < j < |xs| ==> xs[i] != xs[j]
  }

  /** xs lists every element of s exactly once, in some order. */
  predicate IsEnumeration<T(==)>(xs: seq<T>, s: set<T>) {
    NoDuplicates(xs) && (forall x :: x in xs ==> x in s) && (forall x :: x in s ==> x in xs)
  }

  lemma EnumerationLength<T>(xs: seq<T>, s: set<T>)
    requires IsEnumeration(xs, s)
    ensures |xs| == |s|
  {
    if xs != [] {
      var last := xs[|xs| - 1];
      var init := xs[..|xs| - 1];
      assert last !in init by {
        forall i | 0 <= i < |init| ensures init[i] != last { assert xs[i] != xs[|xs| - 1]; }
      }
      assert forall x :: x in xs <==> x in init || x == last;
      EnumerationLength(init, s - {last});
    }
  }

  /** The members of a set as a store returns them (SMEMBERS, or the fields
      of a hash whose order is not pinned down below): each exactly once, in
      an order the store chooses. */
  method Enumerate<T>(s: set<T>) returns (xs: seq<T>)
    ensures IsEnumeration(xs, s)
  {
    var remaining := s;
    xs := [];
    while remaining != {}
      invariant remaining <= s
      invariant NoDuplicates(xs)
      invariant forall x :: x in xs ==> x in s && x !in remaining
      invariant forall x :: x in s ==> x in xs || x in remaining
      decreases |remaining|
    {
      NonEmptyHasMember(remaining);
      var x :| x in remaining;
      xs := xs + [x];
      remaining := remaining - {x};
    }
  }

  // ---------------------------------------------------------------------
  // The property order of a JavaScript object built from a fid hash
  // ---------------------------------------------------------------------

  /** A field holding the decimal text of f is an array index of a
      JavaScript object exactly when 0 <= f < 2^32 - 1. */
  predicate IsArrayIndex(f: int) {
    0 <= f < 0xFFFF_FFFF
  }

  /** The order in which Object.entries and Object.values list the fields
      of an object keyed by fid texts: the array indices first, in
      ascending numeric order, then the other fields. */
  predicate InPropertyOrder(xs: seq<int>) {
    forall i, j :: 0 <= i < j < |xs| && IsArrayIndex(xs[j]) ==> IsArrayIndex(xs[i]) && xs[i] < xs[j]
  }

  /** A non-empty set of fids has a member (the int instance of
      NonEmptyHasMember, which `:|` over integers needs). */
  lemma NonEmptyHasFid(s: set<int>)
    requires s != {}
    ensures exists x :: x in s
  {
    if forall x :: x !in s {
      assert false;
    }
  }

  /** A non-empty set of integers has a least member. */
  lemma {:induction false} HasLeast(s: set<int>) returns (m: int)
    requires s != {}
    ensures m in s && forall y :: y in s ==> m <= y
    decreases |s|
  {
    NonEmptyHasFid(s);
    var x :| x in s;
    if s == {x} {
      m := x;
    } else {
      var least := HasLeast(s - {x});
      m := if x < least then x else least;
      forall y | y in s ensures m <= y {
        if y != x {
          assert y in s - {x};
        }
      }
    }
  }

  /** Every listed fid comes before every array index still to list. */
  predicate ListedFirst(xs: seq<int>, remaining: set<int>) {
    forall i, y :: 0 <= i < |xs| && y in remaining && IsArrayIndex(y) ==> IsArrayIndex(xs[i]) && xs[i] < y
  }

  /** Listing next the least array index left, or any field when no array
      index is left, keeps the property order. */
  lemma PropertyOrderStep(xs: seq<int>, remaining: set<int>, x: int)
    requires InPropertyOrder(xs) && ListedFirst(xs, remaining)
    requires x in remaining
    requires forall y :: y in remaining && IsArrayIndex(y) ==> IsArrayIndex(x) && x <= y
    ensures InPropertyOrder(xs + [x]) && ListedFirst(xs + [x], remaining - {x})
  {
    var ys := xs + [x];
    forall i, j | 0 <= i < j < |ys| && IsArrayIndex(ys[j]) ensures IsArrayIndex(ys[i]) && ys[i] < ys[j] {
      if j == |xs| {
        assert ys[i] == xs[i];
      } else {
        assert ys[i] == xs[i] && ys[j] == xs[j];
      }
    }
    forall i, y | 0 <= i < |ys| && y in remaining - {x} && IsArrayIndex(y)
      ensures IsArrayIndex(ys[i]) && ys[i] < y
    {
      if i < |xs| {
        assert ys[i] == xs[i];
      }
    }
  }

  /** The fids of a hash as the object ioredis builds from HGETALL lists
      them: every field once, the array indices first in ascending order,
      and the other fields (a negative fid, or one of 2^32 - 1 and above)
      after them in an order the store chooses. */
  method EnumerateFids(s: set<int>) returns (xs: seq<int>)
    ensures IsEnumeration(xs, s)
    ensures InPropertyOrder(xs)
  {
    var remaining := s;
    xs := [];
    while remaining != {}
      invariant remaining <= s
      invariant NoDuplicates(xs)
      invariant forall x :: x in xs ==> x in s && x !in remaining
      invariant forall x :: x in s ==> x in xs || x in remaining
      invariant InPropertyOrder(xs) && ListedFirst(xs, remaining)
      decreases |remaining|
    {
      var indices := set y | y in remaining && IsArrayIndex(y);
      assert forall y :: y in remaining && IsArrayIndex(y) ==> y in indices;
      var x;
      if indices != {} {
        ghost var least := HasLeast(indices);
        x :| x in indices && forall y :: y in indices ==> x <= y;
      } else {
        NonEmptyHasFid(remaining);
        x :| x in remaining;
      }
      PropertyOrderStep(xs, remaining, x);
      xs := xs + [x];
      remaining := remaining - {x};
    }
  }

  /** In property order over array indices only, the last fid listed is
      the largest. */
  lemma LastIsLargest(xs: seq<int>, s: set<int>)
    requires IsEnumeration(xs, s) && InPropertyOrder(xs) && xs != []
    requires forall f :: f in s ==> IsArrayIndex(f)
    ensures forall f :: f in s ==> f <= xs[|xs| - 1]
  {
    forall f | f in s ensures f <= xs[|xs| - 1] {
      var i :| 0 <= i < |xs| && xs[i] == f;
      if i < |xs| - 1 {
        assert xs[i] < xs[|xs| - 1];
      }
    }
  }

  /** Dropping the last fid of a listing in property order lists the rest
      of the set, still in property order. */
  lemma DropLast(xs: seq<int>, s: set<int>)
    requires IsEnumeration(xs, s) && InPropertyOrder(xs) && xs != []
    ensures IsEnumeration(xs[..|xs| - 1], s - {xs[|xs| - 1]})
    ensures InPropertyOrder(xs[..|xs| - 1])
  {
    var init, last := xs[..|xs| - 1], xs[|xs| - 1];
    assert xs == init + [last];
    forall x | x in init ensures x in s - {last} {
      var i :| 0 <= i < |init| && init[i] == x;
      assert xs[i] != xs[|xs| - 1];
    }
    forall x | x in s - {last} ensures x in init {
      var i :| 0 <= i < |xs| && xs[i] == x;
      assert i < |xs| - 1;
      assert init[i] == x;
    }
  }

  /** When every fid is an array index, the property order is ascending
      order and there is exactly one listing in it: the order in which
      getFailedFIDs lists the failed hash is then fully determined. */
  lemma {:induction false} PropertyOrderUnique(xs: seq<int>, ys: seq<int>, s: set<int>)
    requires IsEnumeration(xs, s) && InPropertyOrder(xs)
    requires IsEnumeration(ys, s) && InPropertyOrder(ys)
    requires forall f :: f in s ==> IsArrayIndex(f)
    ensures xs == ys
    ensures forall i, j :: 0 <= i < j < |xs| ==> xs[i] < xs[j]
    decreases |xs|
  {
    EnumerationLength(xs, s);
    EnumerationLength(ys, s);
    if xs != [] {
      var n := |xs| - 1;
      assert xs[n] in s && ys[n] in s;
      LastIsLargest(xs, s);
      LastIsLargest(ys, s);
      assert xs[n] == ys[n];
      DropLast(xs, s);
      DropLast(ys, s);
      PropertyOrderUnique(xs[..n], ys[..n], s - {xs[n]});
      assert xs == xs[..n] + [xs[n]] && ys == ys[..n] + [ys[n]];
      forall i, j | 0 <= i < j < |xs| ensures xs[i] < xs[j] {
        assert xs[j] in s;
      }
    }
  }
}
