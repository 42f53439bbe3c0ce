/** The few pieces of Python string behaviour the core relies on:
    `str.startswith`, `str.split(sep)` with an explicit one-character
    separator, f-string rendering of a non-negative `int`, and the
    truthiness test on an optional string. */
module Text {
  import opened Wrappers

  /** Python's `s.startswith(prefix)`: the first `len(prefix)` characters
      of `s` are `prefix`. */
  predicate StartsWith(s: string, prefix: string): (b: bool)
    ensures b <==> |prefix| <= |s| && s[..|prefix|] == prefix
  {
    prefix <= s
  }

  /** Python's `if s:` on a value of type `Optional[str]`: neither `None`
      nor the empty string. */
  predicate Truthy(s: Option<string>): (b: bool)
    ensures !b <==> s == None || s == Some("")
    ensures b ==> |s.value| >= 1
  {
    s.Some? && s.value != ""
  }

  /** `sep.join(parts)`: the reference against which `Split` is specified. */
  function Join(parts: seq<string>, sep: char): string
    decreases |parts|
  {
    if |parts| == 0 then ""
    else if |parts| == 1 then parts[0]
    else parts[0] + [sep] + Join(parts[1..], sep)
  }

  /** Python's `s.split(sep)` for a one-character separator: never empty,
      the pieces contain no separator, and joining them back gives `s`. */
  function Split(s: string, sep: char): (parts: seq<string>)
    ensures |parts| >= 1
    ensures forall i :: 0 <= i < |parts| ==> sep !in parts[i]
    ensures Join(parts, sep) == s
    decreases |s|
  {
    if |s| == 0 then [""]
    else
      var rest := Split(s[1..], sep);
      if s[0] == sep then
        assert s == [sep] + s[1..];
        [""] + rest
      else
        var parts := [[s[0]] + rest[0]] + rest[1..];
        assert parts[1..] == rest[1..];
        assert s == [s[0]] + s[1..];
        parts
  }

  /** A string without separator is a single piece. */
  lemma {:induction false} SplitWithoutSeparator(s: string, sep: char)
    requires sep !in s
    ensures Split(s, sep) == [s]
    decreases |s|
  {
    if |s| > 0 {
      assert sep !in s[1..] by {
        forall i | 0 <= i < |s[1..]| ensures s[1..][i] != sep {
          assert s[1..][i] == s[i + 1];
        }
      }
      SplitWithoutSeparator(s[1..], sep);
      assert s == [s[0]] + s[1..];
    }
  }

  /** One step of `Split`: a leading separator starts a new empty piece,
      any other character joins the first piece of the rest. */
  lemma SplitCons(c: char, t: string, sep: char)
    ensures Split([c] + t, sep) ==
      if c == sep then [""] + Split(t, sep)
      else [[c] + Split(t, sep)[0]] + Split(t, sep)[1..]
  {
    assert ([c] + t)[1..] == t;
  }

  /** The inductive step of `SplitAtSeparator`: one more leading character. */
  lemma SplitAtSeparatorStep(c: char, t: string, rest: string, sep: char, rb: seq<string>)
    requires Split(rest, sep) == Split(t, sep) + rb
    ensures Split([c] + rest, sep) == Split([c] + t, sep) + rb
  {
    var rt := Split(t, sep);
    SplitCons(c, rest, sep);
    SplitCons(c, t, sep);
    if c == sep {
      AppendAssociative([""], rt, rb);
    } else {
      var x := [c] + rt[0];
      assert (rt + rb)[0] == rt[0];
      assert (rt + rb)[1..] == rt[1..] + rb;
      AppendAssociative([x], rt[1..], rb);
    }
  }

  /** Kept as a separate lemma so that the step above sees only this one
      instance of associativity rather than searching for it. */
  lemma AppendAssociative<T>(x: seq<T>, y: seq<T>, z: seq<T>)
    ensures x + (y + z) == (x + y) + z
  {
  }

  /** Splitting at a separator splits the two sides independently. */
  lemma {:induction false} SplitAtSeparator(a: string, b: string, sep: char)
    ensures Split(a + [sep] + b, sep) == Split(a, sep) + Split(b, sep)
    decreases |a|
  {
    if |a| == 0 {
      assert a + [sep] + b == [sep] + b;
      SplitCons(sep, b, sep);
    } else {
      var t := a[1..];
      assert a == [a[0]] + t;
      assert a + [sep] + b == [a[0]] + (t + [sep] + b);
      SplitAtSeparator(t, b, sep);
      SplitAtSeparatorStep(a[0], t, t + [sep] + b, sep, Split(b, sep));
    }
  }

  /** A string framed by two separator-free ends splits into the first
      end, the pieces of the middle, and the last end. */
  lemma SplitFramed(a: string, m: string, z: string, sep: char)
    requires sep !in a && sep !in z
    ensures Split(a + [sep] + m + [sep] + z, sep) == [a] + Split(m, sep) + [z]
  {
    SplitAtSeparator(a + [sep] + m, z, sep);
    SplitAtSeparator(a, m, sep);
    SplitWithoutSeparator(a, sep);
    SplitWithoutSeparator(z, sep);
  }

  /** The number of pieces is one exactly when there is no separator, and
      the first piece is then the whole string; otherwise it is a proper
      prefix. */
  lemma SplitFirstPiece(s: string, sep: char)
    ensures |Split(s, sep)| == 1 <==> sep !in s
    ensures Split(s, sep)[0] == s <==> sep !in s
    ensures Split(s, sep)[0] <= s
    ensures sep in s ==> |Split(s, sep)[0]| < |s|
  {
    var parts := Split(s, sep);
    if sep !in s {
      SplitWithoutSeparator(s, sep);
    } else {
      assert s == parts[0] + [sep] + Join(parts[1..], sep);
      assert |parts[0]| < |s|;
    }
  }

  /** `Split` is the only way to cut `s` into separator-free pieces that
      join back to `s`. */
  lemma {:induction false} SplitUnique(parts: seq<string>, sep: char)
    requires |parts| >= 1
    requires forall i :: 0 <= i < |parts| ==> sep !in parts[i]
    ensures Split(Join(parts, sep), sep) == parts
    decreases |parts|
  {
    if |parts| == 1 {
      SplitWithoutSeparator(parts[0], sep);
    } else {
      var tail := parts[1..];
      assert forall i :: 0 <= i < |tail| ==> sep !in tail[i] by {
        forall i | 0 <= i < |tail| ensures sep !in tail[i] {
          assert tail[i] == parts[i + 1];
        }
      }
      SplitUnique(tail, sep);
      SplitAtSeparator(parts[0], Join(tail, sep), sep);
      SplitWithoutSeparator(parts[0], sep);
      assert parts == [parts[0]] + tail;
    }
  }

  function DigitChar(d: nat): (c: char)
    requires d < 10
    ensures '0' <= c <= '9'
    ensures DigitValue(c) == d
  {
    ('0' as int + d) as char
  }

  /** The value of one decimal digit. */
  function DigitValue(c: char): int {
    c as int - '0' as int
  }

  predicate IsDigits(s: string) {
    forall i :: 0 <= i < |s| ==> '0' <= s[i] <= '9'
  }

  /** The number a run of decimal digits denotes, read left to right. */
  function DigitsValue(s: string): int
    decreases |s|
  {
    if |s| == 0 then 0
    else 10 * DigitsValue(s[..|s| - 1]) + DigitValue(s[|s| - 1])
  }

  /** f-string rendering of a non-negative integer: a non-empty run of
      decimal digits without a leading zero (except "0" itself) that
      denotes `n`. */
  function Decimal(n: nat): (s: string)
    ensures |s| >= 1 && IsDigits(s)
    ensures DigitsValue(s) == n
    ensures s[0] == '0' <==> n == 0
    ensures s[0] == '0' ==> |s| == 1
    decreases n
  {
    if n < 10 then [DigitChar(n)]
    else
      var s := Decimal(n / 10) + [DigitChar(n % 10)];
      assert s[..|s| - 1] == Decimal(n / 10);
      s
  }

  /** Different numbers render differently, so room names built in
      different seconds differ. */
  lemma DecimalInjective(m: nat, n: nat)
    ensures Decimal(m) == Decimal(n) ==> m == n
  {
  }
}
