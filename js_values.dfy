/**
 * The few JavaScript value semantics the application relies on:
 * numbers that may be NaN, truthiness of strings, and the string
 * operations `startsWith`, `split(' ')`, `toLowerCase` and `includes`.
 */
module JsValues {
  import opened Wrappers

  /** A JavaScript number: a finite value, or NaN (what arithmetic on a missing field gives).
      Infinities are not modelled. */
  datatype JsNum = Finite(v: real) | NaN

  function Div(a: JsNum, d: real): (r: JsNum)
    requires d != 0.0
    ensures r.NaN? <==> a.NaN?
    ensures a.Finite? ==> r.v * d == a.v
  {
    match a
    case NaN => NaN
    case Finite(x) => Finite(x / d)
  }

  function Mul(a: JsNum, k: real): (r: JsNum)
    ensures r.NaN? <==> a.NaN?
    ensures a.Finite? ==> r.v == a.v * k
  {
    match a
    case NaN => NaN
    case Finite(x) => Finite(x * k)
  }

  function Sub(a: JsNum, b: JsNum): (r: JsNum)
    ensures r.NaN? <==> a.NaN? || b.NaN?
    ensures r.Finite? ==> r.v + b.v == a.v
  {
    if a.NaN? || b.NaN? then NaN else Finite(a.v - b.v)
  }

  /** `x > 0`: false for NaN, as every comparison with NaN is. */
  predicate GreaterThanZero(a: JsNum) {
    a.Finite? && a.v > 0.0
  }

  /** The value of a form field of type "number" as the application reads it:
      the empty string (falsy), or a non-empty text whose `Number(...)` is `value`. */
  datatype NumericInput = Blank | Entered(value: JsNum)

  /** `!s` for a string that may be undefined: true for undefined and for "". */
  predicate Falsy(s: Option<string>) {
    s.None? || s.value == ""
  }

  /** `s.startsWith(p)`. */
  predicate StartsWith(s: string, p: string) {
    |p| <= |s| && s[..|p|] == p
  }

  /** `s.split(sep)` for a one-character separator: the maximal separator-free pieces,
      including empty ones (`"a  b"` gives `["a", "", "b"]`, `""` gives `[""]`). */
  function Split(s: string, sep: char): (pieces: seq<string>)
    ensures |pieces| >= 1
    ensures forall i :: 0 <= i < |pieces| ==> sep !in pieces[i]
    decreases |s|
  {
    if |s| == 0 then [""]
    else if s[0] == sep then [""] + Split(s[1..], sep)
    else
      var rest := Split(s[1..], sep);
      [[s[0]] + rest[0]] + rest[1..]
  }

  /** `pieces.join(sep)`. */
  function Join(pieces: seq<string>, sep: char): (s: string)
    requires |pieces| >= 1
  {
    if |pieces| == 1 then pieces[0] else pieces[0] + [sep] + Join(pieces[1..], sep)
  }

  /** Splitting and joining again gives back the original string. */
  lemma {:induction false} JoinSplit(s: string, sep: char)
    ensures Join(Split(s, sep), sep) == s
    decreases |s|
  {
    if |s| == 0 {
    } else if s[0] == sep {
      JoinSplit(s[1..], sep);
      assert s == [sep] + s[1..];
    } else {
      JoinSplit(s[1..], sep);
      var rest := Split(s[1..], sep);
      if |rest| == 1 {
        assert s == [s[0]] + s[1..];
      } else {
        assert Join(rest, sep) == rest[0] + [sep] + Join(rest[1..], sep);
        assert s == [s[0]] + s[1..];
      }
    }
  }

  /** A separator-free string splits into itself alone. */
  lemma {:induction false} SplitWithoutSeparator(s: string, sep: char)
    requires sep !in s
    ensures Split(s, sep) == [s]
    decreases |s|
  {
    if |s| > 0 {
      SplitWithoutSeparator(s[1..], sep);
      assert s == [s[0]] + s[1..];
    }
  }

  /** Splitting `a + [sep] + b` with a separator-free `a` yields `a` and then the pieces of `b`. */
  lemma {:induction false} SplitAfterFirstSeparator(a: string, sep: char, b: string)
    requires sep !in a
    ensures Split(a + [sep] + b, sep) == [a] + Split(b, sep)
    decreases |a|
  {
    if |a| == 0 {
      assert a + [sep] + b == [sep] + b;
      assert ([sep] + b)[1..] == b;
    } else {
      SplitAfterFirstSeparator(a[1..], sep, b);
      assert (a + [sep] + b)[1..] == a[1..] + [sep] + b;
      assert a == [a[0]] + a[1..];
    }
  }

  /** A string splits into more than one piece exactly when it holds the separator. */
  lemma {:induction false} SplitIsSingleIff(s: string, sep: char)
    ensures |Split(s, sep)| == 1 <==> sep !in s
    decreases |s|
  {
    if |s| > 0 {
      assert s == [s[0]] + s[1..];
      SplitIsSingleIff(s[1..], sep);
    }
  }

  /** `pieces[i]`, undefined past the end. */
  function FieldAt(pieces: seq<string>, i: nat): (f: Option<string>)
    ensures f.Some? <==> i < |pieces|
  {
    if i < |pieces| then Some(pieces[i]) else None
  }

  /** `toLowerCase()` on ASCII letters; other characters are kept. */
  function ToLower(s: string): (r: string)
    ensures |r| == |s|
    ensures forall i :: 0 <= i < |s| ==> r[i] == LowerChar(s[i])
  {
    seq(|s|, i requires 0 <= i < |s| => LowerChar(s[i]))
  }

  function LowerChar(c: char): char {
    if 'A' <= c <= 'Z' then (c as int - 'A' as int + 'a' as int) as char else c
  }

  /** `s.includes(p)`. */
  predicate Includes(s: string, p: string) {
    exists k | 0 <= k <= |s| - |p| :: OccursAt(s, p, k)
  }

  /** `p` occurs in `s` starting at position `k`. */
  predicate OccursAt(s: string, p: string, k: int) {
    0 <= k <= |s| - |p| && s[k..k + |p|] == p
  }

  /** Lower-casing keeps an occurrence, lower-cased, at the same place. */
  lemma IncludesLowered(s: string, p: string)
    requires Includes(s, p)
    ensures Includes(ToLower(s), ToLower(p))
  {
    var k :| 0 <= k <= |s| - |p| && OccursAt(s, p, k);
    var t := ToLower(s);
    assert t[k..k + |p|] == ToLower(p) by {
      forall i | 0 <= i < |p|
        ensures t[k..k + |p|][i] == ToLower(p)[i]
      {
        assert s[k..k + |p|][i] == p[i];
      }
    }
    assert OccursAt(t, ToLower(p), k);
  }

  /** Any string that ends with `p` includes `p`. */
  lemma EndsWithIncludes(prefix: string, p: string)
    ensures Includes(prefix + p, p)
  {
    var s := prefix + p;
    assert s[|prefix|..|prefix| + |p|] == p;
    assert OccursAt(s, p, |prefix|);
  }
}
