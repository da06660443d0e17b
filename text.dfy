/** The string and path primitives of Go's standard library that the worker
    relies on: strings.Contains, fmt's %d verb, strconv.Atoi, filepath.Join
    and filepath.Base (Unix separator). */
module Text {
  import opened Types

  // ---------------------------------------------------------------------
  // strings.Contains

  /** `sub` occurs in `s` starting at index `i`. */
  predicate OccursAt(s: string, sub: string, i: int) {
    0 <= i && i + |sub| <= |s| && s[i..i + |sub|] == sub
  }

  /** `sub` occurs somewhere in `s`. */
  predicate Contains(s: string, sub: string)
    ensures Contains(s, sub) ==> |sub| <= |s|
    ensures sub == "" ==> Contains(s, sub)
  {
    assert OccursAt(s, "", 0);
    exists i | 0 <= i <= |s| - |sub| :: OccursAt(s, sub, i)
  }

  /** A pattern holding a character that the text lacks never occurs in it. */
  lemma MissingCharNotContained(s: string, sub: string, c: char)
    requires c in sub && c !in s
    ensures !Contains(s, sub)
  {
  }

  /** An occurrence at a known position is an occurrence. */
  lemma ContainsAt(s: string, sub: string, i: nat)
    requires OccursAt(s, sub, i)
    ensures Contains(s, sub)
  {
  }

  // ---------------------------------------------------------------------
  // Decimal digits: fmt's %d and strconv.Atoi

  predicate IsDigit(c: char) {
    '0' <= c <= '9'
  }

  predicate AllDigits(s: string) {
    forall i :: 0 <= i < |s| ==> IsDigit(s[i])
  }

  function DigitChar(d: nat): (c: char)
    requires d < 10
    ensures IsDigit(c)
  {
    ('0' as int + d) as char
  }

  function DigitValue(c: char): nat
    requires IsDigit(c)
  {
    c as int - '0' as int
  }

  /** The number a string of decimal digits denotes (leading zeros allowed). */
  function DigitsValue(s: string): nat
    requires AllDigits(s)
  {
    if s == [] then 0 else DigitsValue(s[..|s| - 1]) * 10 + DigitValue(s[|s| - 1])
  }

  /** `%d` of a non-negative number: its shortest decimal spelling. */
  function NatToString(n: nat): (s: string)
    ensures |s| > 0 && AllDigits(s)
  {
    if n < 10 then [DigitChar(n)] else NatToString(n / 10) + [DigitChar(n % 10)]
  }

  /** `%d` of any integer: a minus sign before the magnitude when negative. */
  function IntToString(i: int): (s: string)
    ensures |s| > 0 && (s[0] == '-' <==> i < 0)
    ensures i < 0 ==> AllDigits(s[1..]) && |s| > 1
    ensures i >= 0 ==> AllDigits(s)
  {
    if i < 0 then "-" + NatToString(-i) else NatToString(i)
  }

  /** Reading back the digits `%d` wrote gives the number written. */
  lemma {:induction false} NatToStringDigits(n: nat)
    ensures DigitsValue(NatToString(n)) == n
  {
    if n >= 10 {
      NatToStringDigits(n / 10);
      var s := NatToString(n);
      assert s[..|s| - 1] == NatToString(n / 10);
    }
  }

  const MaxInt64: int := 0x7fff_ffff_ffff_ffff
  const MinInt64: int := -0x8000_0000_0000_0000

  predicate InInt64(v: int) {
    MinInt64 <= v <= MaxInt64
  }

  /** strconv.Atoi on a 64-bit platform: an optional '+' or '-', then one or
      more decimal digits, with the value inside the int64 range; anything
      else (the empty string, a lone sign, any other character, overflow) is
      an error. */
  function Atoi(s: string): (r: Option<int>)
    ensures r.Some? ==> s != "" && InInt64(r.value)
    ensures r.Some? && s[0] != '-' ==> r.value >= 0
  {
    if s == "" then None
    else
      var digits := if s[0] == '+' || s[0] == '-' then s[1..] else s;
      if digits == "" || !AllDigits(digits) then None
      else
        var v: int := if s[0] == '-' then 0 - (DigitsValue(digits) as int) else DigitsValue(digits);
        if InInt64(v) then Some(v) else None
  }

  /** Atoi undoes `%d` on every int64 value. */
  lemma AtoiIntToString(i: int)
    requires InInt64(i)
    ensures Atoi(IntToString(i)) == Some(i)
  {
    var m: nat := if i < 0 then -i else i;
    NatToStringDigits(m);
    if i < 0 {
      assert IntToString(i)[1..] == NatToString(m);
    }
  }

  // ---------------------------------------------------------------------
  // filepath.Join and filepath.Base

  /** The elements of `parts` that are not empty, in order. */
  function NonEmpty(parts: seq<string>): (r: seq<string>)
    ensures forall i :: 0 <= i < |r| ==> r[i] != ""
    ensures r == [] <==> forall i :: 0 <= i < |parts| ==> parts[i] == ""
  {
    if parts == [] then []
    else
      var last := parts[|parts| - 1];
      NonEmpty(parts[..|parts| - 1]) + (if last == "" then [] else [last])
  }

  function Interpose(parts: seq<string>): (r: string)
    ensures (forall i :: 0 <= i < |parts| ==> parts[i] != "") ==> (r == "" <==> parts == [])
  {
    if parts == [] then ""
    else if |parts| == 1 then parts[0]
    else Interpose(parts[..|parts| - 1]) + "/" + parts[|parts| - 1]
  }

  /** filepath.Join without the final Clean: the non-empty elements,
      separated by '/'. */
  function Join(parts: seq<string>): string {
    Interpose(NonEmpty(parts))
  }

  /** Join gives the empty path exactly when every element is empty. */
  lemma JoinIsEmpty(parts: seq<string>)
    ensures Join(parts) == "" <==> forall i :: 0 <= i < |parts| ==> parts[i] == ""
  {
  }

  lemma {:induction false} NonEmptyAppend(xs: seq<string>, ys: seq<string>)
    ensures NonEmpty(xs + ys) == NonEmpty(xs) + NonEmpty(ys)
    decreases |ys|
  {
    if ys == [] {
      assert xs + ys == xs;
    } else {
      var n := |ys| - 1;
      assert (xs + ys)[..|xs + ys| - 1] == xs + ys[..n];
      NonEmptyAppend(xs, ys[..n]);
    }
  }

  lemma {:induction false} InterposeAppend(a: seq<string>, b: seq<string>)
    requires a != [] && b != []
    ensures Interpose(a + b) == Interpose(a) + "/" + Interpose(b)
    decreases |b|
  {
    if |b| == 1 {
      assert (a + b)[..|a + b| - 1] == a;
    } else {
      var n := |b| - 1;
      assert (a + b)[..|a + b| - 1] == a + b[..n];
      assert (a + b)[|a + b| - 1] == b[n];
      InterposeAppend(a, b[..n]);
      var p, q := Interpose(a), Interpose(b[..n]);
      assert Interpose(a + b) == (p + "/" + q) + "/" + b[n];
      assert (p + "/" + q) + "/" + b[n] == p + "/" + (q + "/" + b[n]);
    }
  }

  /** Joining an already joined prefix with more elements gives the path
      that joining all the elements at once gives. */
  lemma JoinNested(xs: seq<string>, ys: seq<string>)
    ensures Join([Join(xs)] + ys) == Join(xs + ys)
  {
    var j := Join(xs);
    NonEmptyAppend(xs, ys);
    NonEmptyAppend([j], ys);
    assert [j][..0] == [];
    JoinIsEmpty(xs);
    if j == "" {
      assert NonEmpty(xs) == [];
      assert NonEmpty([j]) + NonEmpty(ys) == NonEmpty(ys);
    } else if NonEmpty(ys) == [] {
      assert NonEmpty(xs) + NonEmpty(ys) == NonEmpty(xs);
      assert NonEmpty([j]) + NonEmpty(ys) == [j];
    } else {
      assert NonEmpty(xs) != [];
      assert NonEmpty([j]) == [j];
      InterposeAppend([j], NonEmpty(ys));
      InterposeAppend(NonEmpty(xs), NonEmpty(ys));
    }
  }

  /** A joined path whose last element is a plain name ends in that name,
      after a separator unless the name is the whole path. */
  lemma JoinEndsWithLast(parts: seq<string>)
    requires |parts| > 0 && parts[|parts| - 1] != ""
    ensures var last := parts[|parts| - 1];
            Join(parts) == last ||
            Join(parts) == Join(parts[..|parts| - 1]) + "/" + last
  {
  }

  function TrimTrailingSlashes(p: string): (r: string)
    ensures r == [] || r[|r| - 1] != '/'
  {
    if p != [] && p[|p| - 1] == '/' then TrimTrailingSlashes(p[..|p| - 1]) else p
  }

  /** The text after the last '/'. */
  function AfterLastSlash(p: string): (r: string)
    ensures '/' !in r
    ensures p != [] && p[|p| - 1] != '/' ==> r != []
  {
    if p == [] || p[|p| - 1] == '/' then [] else AfterLastSlash(p[..|p| - 1]) + [p[|p| - 1]]
  }

  /** filepath.Base: "." for the empty path, "/" for a path of slashes only,
      otherwise the last element once trailing slashes are removed. It is
      never empty and holds no separator unless it is the root. */
  function Base(p: string): (r: string)
    ensures r != ""
    ensures r == "/" || '/' !in r
  {
    if p == "" then "."
    else
      var q := TrimTrailingSlashes(p);
      if q == "" then "/" else AfterLastSlash(q)
  }

  lemma {:induction false} AfterSlashIsName(dir: string, name: string)
    requires '/' !in name
    ensures AfterLastSlash(dir + "/" + name) == name
  {
    if name != [] {
      var p := dir + "/" + name;
      var front := name[..|name| - 1];
      assert p[..|p| - 1] == dir + "/" + front;
      AfterSlashIsName(dir, front);
    }
  }

  /** Base recovers the file name from a path that ends in it. */
  lemma BaseOfPath(dir: string, name: string)
    requires name != "" && '/' !in name
    ensures Base(dir + "/" + name) == name
  {
    AfterSlashIsName(dir, name);
  }

  /** Base of a bare name (no separator) is the name itself. */
  lemma {:induction false} BaseOfName(name: string)
    requires name != "" && '/' !in name
    ensures Base(name) == name
  {
    NameIsAfterLastSlash(name);
  }

  lemma {:induction false} NameIsAfterLastSlash(name: string)
    requires '/' !in name
    ensures AfterLastSlash(name) == name
  {
    if name != [] {
      NameIsAfterLastSlash(name[..|name| - 1]);
    }
  }

  /** A joined path whose last element is a plain name has that name as
      its base. */
  lemma BaseOfJoin(parts: seq<string>)
    requires |parts| > 0
    requires var last := parts[|parts| - 1]; last != "" && '/' !in last
    ensures Base(Join(parts)) == parts[|parts| - 1]
  {
    var last := parts[|parts| - 1];
    JoinEndsWithLast(parts);
    if Join(parts) == last {
      BaseOfName(last);
    } else {
      BaseOfPath(Join(parts[..|parts| - 1]), last);
    }
  }
}
