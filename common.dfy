// Helpers shared by the components: an optional value, the ASCII view of
// JavaScript's string methods, and list operations built from `filter` and
// spread.

module Wrappers {
  /** A value that JavaScript leaves `undefined` or `null`. */
  datatype Option<T> = None | Some(value: T)

  /** The outcome of an operation that may throw. */
  datatype Result<T, E> = Success(value: T) | Failure(error: E)
}

/** ASCII models of the JavaScript string methods the components call:
    `trim`, `toLowerCase`, `toUpperCase`, `includes`, `indexOf`,
    `lastIndexOf` and the decimal rendering of a non-negative number. */
module Strings {
  import opened Wrappers

  /** The ASCII characters `String.prototype.trim` removes. */
  predicate IsWhitespace(c: char) {
    c == ' ' || c == '\t' || c == '\n' || c == '\r' || c == '\U{000B}' || c == '\U{000C}'
  }

  predicate AllWhitespace(s: string) {
    forall i :: 0 <= i < |s| ==> IsWhitespace(s[i])
  }

  /** Leading whitespace removed: the result is a suffix of `s`, what was
      dropped is all whitespace, and the result does not start with any. */
  function TrimStart(s: string): (r: string)
    ensures |r| <= |s| && r == s[|s| - |r|..]
    ensures AllWhitespace(s[..|s| - |r|])
    ensures |r| > 0 ==> !IsWhitespace(r[0])
  {
    if |s| > 0 && IsWhitespace(s[0]) then
      var r := TrimStart(s[1..]);
      assert s[1..][..|s[1..]| - |r|] == s[1..|s| - |r|];
      r
    else s
  }

  /** Trailing whitespace removed: the result is a prefix of `s`, what was
      dropped is all whitespace, and the result does not end with any. */
  function TrimEnd(s: string): (r: string)
    ensures |r| <= |s| && r == s[..|r|]
    ensures AllWhitespace(s[|r|..])
    ensures |r| > 0 ==> !IsWhitespace(r[|r| - 1])
  {
    if |s| > 0 && IsWhitespace(s[|s| - 1]) then
      var r := TrimEnd(s[..|s| - 1]);
      assert s[..|s| - 1][|r|..] == s[|r|..|s| - 1];
      r
    else s
  }

  function Trim(s: string): string {
    TrimEnd(TrimStart(s))
  }

  /** `!s.trim()` in the source: the trimmed string is empty. */
  predicate IsBlank(s: string) {
    |Trim(s)| == 0
  }

  /** A string is blank exactly when every character is whitespace. */
  lemma BlankIffAllWhitespace(s: string)
    ensures IsBlank(s) <==> AllWhitespace(s)
  {
    var t := TrimStart(s);
    if IsBlank(s) {
      assert TrimEnd(t) == [];
      assert t[0..] == t;
      assert s == s[..|s| - |t|] + t;
    } else {
      var r := Trim(s);
      assert r[0] == t[0];
      assert t[0] == s[|s| - |t|];
    }
  }

  function LowerChar(c: char): char {
    if 'A' <= c <= 'Z' then (c as int + 32) as char else c
  }

  function UpperChar(c: char): char {
    if 'a' <= c <= 'z' then (c as int - 32) as char else c
  }

  /** `toLowerCase` restricted to ASCII letters. */
  function ToLower(s: string): (r: string)
    ensures |r| == |s|
    ensures forall i :: 0 <= i < |s| ==> r[i] == LowerChar(s[i])
  {
    seq(|s|, i requires 0 <= i < |s| => LowerChar(s[i]))
  }

  /** `toUpperCase` restricted to ASCII letters. */
  function ToUpper(s: string): (r: string)
    ensures |r| == |s|
    ensures forall i :: 0 <= i < |s| ==> r[i] == UpperChar(s[i])
  {
    seq(|s|, i requires 0 <= i < |s| => UpperChar(s[i]))
  }

  /** Upper-casing first does not change the lower-cased string, so a
      comparison made after `toLowerCase` ignores the case of the input. */
  lemma LowerOfUpper(s: string)
    ensures ToLower(ToUpper(s)) == ToLower(s)
  {
    forall i | 0 <= i < |s|
      ensures ToLower(ToUpper(s))[i] == ToLower(s)[i]
    {
      var c := s[i];
      if 'a' <= c <= 'z' {
        assert UpperChar(c) as int == c as int - 32;
      }
    }
  }

  predicate OccursAt(s: string, t: string, i: int) {
    0 <= i && i + |t| <= |s| && s[i..i + |t|] == t
  }

  /** A one-character string occurs exactly where that character is. */
  lemma OccursAtChar(s: string, c: char, k: nat)
    requires k < |s|
    ensures OccursAt(s, [c], k) <==> s[k] == c
  {
    assert s[k..k + 1] == [s[k]];
  }

  /** `s.includes(t)`. */
  predicate Contains(s: string, t: string) {
    exists i :: 0 <= i <= |s| - |t| && OccursAt(s, t, i)
  }

  /** `s.indexOf(t, from)`: the first occurrence of `t` at or after `from`. */
  function IndexOfFrom(s: string, t: string, from: nat): (r: Option<nat>)
    decreases |s| - from
    ensures r.Some? ==> from <= r.value && OccursAt(s, t, r.value)
    ensures forall i :: from <= i && (r.None? || i < r.value) ==> !OccursAt(s, t, i)
  {
    if from + |t| > |s| then None
    else if s[from..from + |t|] == t then Some(from)
    else IndexOfFrom(s, t, from + 1)
  }

  /** `s.lastIndexOf(t)`, searching backwards from position `upto`. */
  function LastIndexOfUpto(s: string, t: string, upto: int): (r: Option<nat>)
    decreases upto + 1
    ensures r.Some? ==> r.value <= upto && OccursAt(s, t, r.value)
    ensures forall i :: i <= upto && (r.None? || r.value < i) ==> !OccursAt(s, t, i)
  {
    if upto < 0 then None
    else if OccursAt(s, t, upto) then Some(upto)
    else LastIndexOfUpto(s, t, upto - 1)
  }

  function DigitChar(d: nat): (c: char)
    requires d < 10
  {
    ('0' as int + d) as char
  }

  predicate IsDigit(c: char) {
    '0' <= c <= '9'
  }

  /** The decimal rendering of `n`, as template strings print numbers. */
  function NatToString(n: nat): (r: string)
    ensures |r| > 0
    ensures forall i :: 0 <= i < |r| ==> IsDigit(r[i])
  {
    (if n < 10 then "" else NatToString(n / 10)) + [DigitChar(n % 10)]
  }

  /** Distinct numbers print differently. */
  lemma {:induction false} NatToStringInjective(n: nat, m: nat)
    requires NatToString(n) == NatToString(m)
    ensures n == m
  {
    var sn, sm := NatToString(n), NatToString(m);
    assert DigitChar(n % 10) == sn[|sn| - 1] == sm[|sm| - 1] == DigitChar(m % 10);
    assert n % 10 == m % 10;
    if n >= 10 && m >= 10 {
      assert NatToString(n / 10) == sn[..|sn| - 1] == sm[..|sm| - 1] == NatToString(m / 10);
      NatToStringInjective(n / 10, m / 10);
    }
  }
}

/** The list operations the components build from `filter` and spread. */
module Lists {

  /** `r` keeps some of the elements of `s`, in their order. */
  predicate IsSubsequence<T(==)>(r: seq<T>, s: seq<T>)
    decreases |s|
  {
    |r| == 0 || (|s| > 0 && if r[0] == s[0] then IsSubsequence(r[1..], s[1..]) else IsSubsequence(r, s[1..]))
  }

  lemma {:induction false} SubsequencePrepend<T>(r: seq<T>, s: seq<T>, x: T)
    requires IsSubsequence(r, s)
    ensures IsSubsequence([x] + r, [x] + s) && IsSubsequence(r, [x] + s)
    decreases |s|
  {
    assert ([x] + r)[1..] == r && ([x] + s)[1..] == s;
    if |r| > 0 && r[0] == x {
      assert IsSubsequence(r[1..], s) by {
        SubsequenceDropHead(r, s);
      }
    }
  }

  lemma {:induction false} SubsequenceDropHead<T>(r: seq<T>, s: seq<T>)
    requires |r| > 0 && IsSubsequence(r, s)
    ensures IsSubsequence(r[1..], s)
    decreases |s|, 1
  {
    if r[0] == s[0] {
      SubsequenceTail(r[1..], s);
    } else {
      SubsequenceDropHead(r, s[1..]);
      SubsequenceTail(r[1..], s);
    }
  }

  lemma {:induction false} SubsequenceTail<T>(r: seq<T>, s: seq<T>)
    requires |s| > 0 && IsSubsequence(r, s[1..])
    ensures IsSubsequence(r, s)
    decreases |s|, 0
  {
    if |r| > 0 && r[0] == s[0] {
      SubsequenceDropHead(r, s[1..]);
    }
  }

  /** `xs.filter(y => y !== x)`: every `x` removed, the rest kept in order. */
  function RemoveAll<T(==)>(xs: seq<T>, x: T): (r: seq<T>)
    ensures IsSubsequence(r, xs)
    ensures multiset(r) == multiset(xs)[x := 0]
    ensures x !in r
  {
    if xs == [] then []
    else
      var rest := RemoveAll(xs[1..], x);
      assert xs == [xs[0]] + xs[1..];
      if xs[0] == x then
        SubsequenceTail(rest, xs);
        rest
      else
        SubsequencePrepend(rest, xs[1..], xs[0]);
        [xs[0]] + rest
  }

  /** `xs.includes(x) ? xs.filter(y => y !== x) : [...xs, x]`. */
  function ToggleMember<T(==)>(xs: seq<T>, x: T): (r: seq<T>)
    ensures x in r <==> x !in xs
    ensures multiset(r)[x := 0] == multiset(xs)[x := 0]
    ensures x !in xs ==> r == xs + [x]
  {
    if x in xs then RemoveAll(xs, x) else xs + [x]
  }

  predicate NoDuplicates<T(==)>(xs: seq<T>) {
    forall i, j :: 0 <= i < j < |xs| ==> xs[i] != xs[j]
  }

  lemma {:induction false} RemoveAbsent<T>(xs: seq<T>, x: T)
    requires x !in xs
    ensures RemoveAll(xs, x) == xs
  {
    if xs != [] {
      RemoveAbsent(xs[1..], x);
    }
  }

  /** Toggling keeps a duplicate-free list duplicate-free. */
  lemma ToggleKeepsNoDuplicates<T>(xs: seq<T>, x: T)
    requires NoDuplicates(xs)
    ensures NoDuplicates(ToggleMember(xs, x))
  {
    if x in xs {
      RemoveAllKeepsNoDuplicates(xs, x);
    } else {
      var r := xs + [x];
      forall i, j | 0 <= i < j < |r|
        ensures r[i] != r[j]
      {
        if j == |xs| {
          assert r[i] == xs[i];
        }
      }
    }
  }

  lemma {:induction false} RemoveAllKeepsNoDuplicates<T>(xs: seq<T>, x: T)
    requires NoDuplicates(xs)
    ensures NoDuplicates(RemoveAll(xs, x))
  {
    if xs != [] {
      var tail := xs[1..];
      assert NoDuplicates(tail) by {
        forall i, j | 0 <= i < j < |tail|
          ensures tail[i] != tail[j]
        {
          assert tail[i] == xs[i + 1] && tail[j] == xs[j + 1];
        }
      }
      RemoveAllKeepsNoDuplicates(tail, x);
      var rest := RemoveAll(tail, x);
      if xs[0] != x {
        assert xs[0] !in tail by {
          forall j | 0 <= j < |tail|
            ensures tail[j] != xs[0]
          {
            assert tail[j] == xs[j + 1];
          }
        }
        assert xs[0] !in rest by {
          assert multiset(rest)[xs[0]] == multiset(tail)[xs[0]] == 0;
        }
        var r := [xs[0]] + rest;
        forall i, j | 0 <= i < j < |r|
          ensures r[i] != r[j]
        {
          assert r[j] == rest[j - 1];
          if i > 0 {
            assert r[i] == rest[i - 1];
          }
        }
      }
    }
  }

  /** Toggling an absent element twice restores the list; toggling a
      present element twice keeps the same elements but moves it to the
      end. */
  lemma ToggleTwice<T>(xs: seq<T>, x: T)
    ensures x !in xs ==> ToggleMember(ToggleMember(xs, x), x) == xs
    ensures x in xs ==> ToggleMember(ToggleMember(xs, x), x) == RemoveAll(xs, x) + [x]
  {
    if x !in xs {
      assert x in xs + [x];
      RemoveAllAppend(xs, x);
    }
  }

  lemma {:induction false} RemoveAllAppend<T>(xs: seq<T>, x: T)
    requires x !in xs
    ensures RemoveAll(xs + [x], x) == xs
  {
    if xs == [] {
      assert [x][1..] == [];
    } else {
      assert (xs + [x])[1..] == xs[1..] + [x];
      RemoveAllAppend(xs[1..], x);
    }
  }

  /** The list is not restored in general: toggling 1 in [1, 2] twice
      gives [2, 1]. */
  lemma ToggleTwiceMovesPresent()
    ensures ToggleMember(ToggleMember([1, 2], 1), 1) == [2, 1]
  {
    ToggleTwice([1, 2], 1);
    assert RemoveAll([2], 1) == [2] by {
      RemoveAbsent([2], 1);
    }
    assert RemoveAll([1, 2], 1) == [2] by {
      assert [1, 2][1..] == [2];
    }
  }
}
