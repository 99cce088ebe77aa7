/**
 * The few JavaScript string operations the request handlers rely on, on
 * `seq<char>`: `split` and `join` with a one-character separator, the
 * `split(a).join(b)` idiom that replaces every occurrence of a character, and
 * the decimal rendering and reading of a whole number (`${n}` and `+s`).
 */
module Strings {

  /**
   * `parts.join(sep)`: the parts with one separator between neighbours. The
   * first part starts the result and, when more parts follow, the separator
   * comes right after it.
   */
  function Join(parts: seq<string>, sep: char): (r: string)
    ensures |parts| >= 1 ==> parts[0] <= r
    ensures |parts| >= 2 ==> |r| > |parts[0]| && r[|parts[0]|] == sep
  {
    if |parts| == 0 then ""
    else if |parts| == 1 then parts[0]
    else parts[0] + [sep] + Join(parts[1..], sep)
  }

  /** Joining a list whose head starts with `c` is `c` before the join of the rest. */
  lemma {:induction false} JoinConsHead(c: char, parts: seq<string>, sep: char)
    requires |parts| >= 1
    ensures Join([[c] + parts[0]] + parts[1..], sep) == [c] + Join(parts, sep)
  {
    var xs := [[c] + parts[0]] + parts[1..];
    if |parts| > 1 {
      assert xs[1..] == parts[1..];
      calc {
        Join(xs, sep);
        xs[0] + [sep] + Join(xs[1..], sep);
        [c] + (parts[0] + [sep] + Join(parts[1..], sep));
      }
    }
  }

  /**
   * `s.split(sep)`: the maximal separator-free pieces of `s`, in order. There
   * is always at least one piece, the first piece is the prefix of `s` up to
   * its first separator, and joining the pieces with the separator gives `s`
   * back.
   */
  function Split(s: string, sep: char): (parts: seq<string>)
    ensures |parts| >= 1
    ensures forall i :: 0 <= i < |parts| ==> sep !in parts[i]
    ensures parts[0] <= s
    ensures |parts[0]| < |s| ==> s[|parts[0]|] == sep
    ensures Join(parts, sep) == s
    decreases |s|
  {
    if |s| == 0 then [""]
    else
      var rest := Split(s[1..], sep);
      if s[0] == sep then
        assert [sep] + s[1..] == s;
        [""] + rest
      else
        JoinConsHead(s[0], rest, sep);
        assert [s[0]] + s[1..] == s;
        [[s[0]] + rest[0]] + rest[1..]
  }

  /** A string without the separator splits into itself alone. */
  lemma {:induction false} SplitAbsent(s: string, sep: char)
    requires sep !in s
    ensures Split(s, sep) == [s]
    decreases |s|
  {
    if |s| > 0 {
      SplitAbsent(s[1..], sep);
      assert [s[0]] + s[1..] == s;
    }
  }

  /** One step of `Split`: a leading non-separator joins the first piece of the rest. */
  lemma SplitStep(c: char, t: string, sep: char)
    requires c != sep
    ensures Split([c] + t, sep) == [[c] + Split(t, sep)[0]] + Split(t, sep)[1..]
  {
    assert ([c] + t)[1..] == t;
  }

  /** Splitting at the first separator: the separator-free head becomes the first piece. */
  lemma {:induction false} SplitAfterSeparator(a: string, b: string, sep: char)
    requires sep !in a
    ensures Split(a + [sep] + b, sep) == [a] + Split(b, sep)
    decreases |a|
  {
    if |a| == 0 {
      var s := a + [sep] + b;
      assert s[0] == sep && s[1..] == b;
    } else {
      var t := a[1..] + [sep] + b;
      SplitAfterSeparator(a[1..], b, sep);
      assert a + [sep] + b == [a[0]] + t;
      SplitStep(a[0], t, sep);
      assert [a[0]] + a[1..] == a;
    }
  }

  /** `join` then `split` is the identity on non-empty lists of separator-free pieces. */
  lemma {:induction false} SplitJoin(parts: seq<string>, sep: char)
    requires |parts| >= 1
    requires forall i :: 0 <= i < |parts| ==> sep !in parts[i]
    ensures Split(Join(parts, sep), sep) == parts
  {
    if |parts| == 1 {
      SplitAbsent(parts[0], sep);
    } else {
      SplitJoin(parts[1..], sep);
      SplitAfterSeparator(parts[0], Join(parts[1..], sep), sep);
      assert [parts[0]] + parts[1..] == parts;
    }
  }

  /** One character of `split(from).join(to)`: a `from` becomes `to`, anything else stays. */
  lemma JoinSplitStep(s: string, from: char, to: char)
    requires |s| > 0
    ensures Join(Split(s, from), to) == [if s[0] == from then to else s[0]] + Join(Split(s[1..], from), to)
  {
    var t := s[1..];
    var rest := Split(t, from);
    assert s == [s[0]] + t;
    if s[0] == from {
      assert Split(s, from) == [""] + rest;
      assert ([""] + rest)[1..] == rest;
    } else {
      SplitStep(s[0], t, from);
      JoinConsHead(s[0], rest, to);
    }
  }

  /** `split(from).join(to)` changes every `from` into `to` and leaves every other character. */
  lemma {:induction false} JoinSplitPointwise(s: string, from: char, to: char)
    ensures |Join(Split(s, from), to)| == |s|
    ensures forall i :: 0 <= i < |s| ==>
      Join(Split(s, from), to)[i] == (if s[i] == from then to else s[i])
    decreases |s|
  {
    if |s| > 0 {
      var t := s[1..];
      JoinSplitPointwise(t, from, to);
      JoinSplitStep(s, from, to);
      var r := Join(Split(s, from), to);
      var tail := Join(Split(t, from), to);
      forall i | 0 <= i < |s| ensures r[i] == (if s[i] == from then to else s[i]) {
        if i > 0 {
          assert r[i] == tail[i - 1] && s[i] == t[i - 1];
        }
      }
    }
  }

  /**
   * `s.split(from).join(to)`: the string with every `from` replaced by `to`.
   * It has the length of `s`, and no `from` is left when the two differ.
   */
  function ReplaceAll(s: string, from: char, to: char): (r: string)
    ensures |r| == |s|
    ensures forall i :: 0 <= i < |s| ==> r[i] == (if s[i] == from then to else s[i])
    ensures from != to ==> from !in r
  {
    JoinSplitPointwise(s, from, to);
    Join(Split(s, from), to)
  }

  /** Replacing a character that does not occur leaves the string as it is. */
  lemma ReplaceAllAbsent(s: string, from: char, to: char)
    requires from !in s
    ensures ReplaceAll(s, from, to) == s
  {
    var r := ReplaceAll(s, from, to);
    assert forall i :: 0 <= i < |s| ==> r[i] == s[i];
  }

  predicate IsDigits(s: string)
  {
    forall i :: 0 <= i < |s| ==> '0' <= s[i] <= '9'
  }

  function DigitChar(d: nat): (c: char)
    requires d < 10
    ensures '0' <= c <= '9'
  {
    "0123456789"[d]
  }

  function DigitValue(c: char): nat
    requires '0' <= c <= '9'
  {
    (c as int) - ('0' as int)
  }

  /** The decimal text of a whole number, as a template literal renders it: digits only, never empty. */
  function DecimalString(n: nat): (s: string)
    ensures |s| >= 1 && IsDigits(s)
  {
    if n < 10 then [DigitChar(n)] else DecimalString(n / 10) + [DigitChar(n % 10)]
  }

  /**
   * The value of a string of decimal digits (the empty string reads as 0).
   * A string reads as 0 exactly when all its digits are '0'.
   */
  function DecimalValue(s: string): (v: nat)
    requires IsDigits(s)
    ensures v == 0 <==> forall i :: 0 <= i < |s| ==> s[i] == '0'
  {
    if |s| == 0 then 0
    else
      var init := s[..|s| - 1];
      assert forall i :: 0 <= i < |init| ==> init[i] == s[i];
      DecimalValue(init) * 10 + DigitValue(s[|s| - 1])
  }

  /** Reading back the decimal text of `n` gives `n`. */
  lemma {:induction false} DecimalRoundTrip(n: nat)
    ensures DecimalValue(DecimalString(n)) == n
  {
    var s := DecimalString(n);
    if n < 10 {
      assert DigitValue(DigitChar(n)) == n by {
        assert "0123456789"[n] as int == '0' as int + n;
      }
    } else {
      DecimalRoundTrip(n / 10);
      assert s[..|s| - 1] == DecimalString(n / 10);
      assert DigitValue(DigitChar(n % 10)) == n % 10 by {
        assert "0123456789"[n % 10] as int == '0' as int + n % 10;
      }
    }
  }
}
