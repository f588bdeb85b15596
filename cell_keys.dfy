/** Cell identities: the key `cell_{n}_{type}` that names a monitored cell
    (app2.py:182), and its parse `key.split('_')[2]` that recovers the
    chemistry (app2.py:137, 212, 297, 319, 529). */
module CellKeys {
  import opened Wrappers

  const Separator: char := '_'

  /** Python's `s.split(sep)` with an explicit separator: the pieces between
      consecutive separators, empty pieces included ("".split("_") == [""]). */
  function Split(s: string, sep: char): (parts: seq<string>)
    ensures |parts| >= 1
    ensures forall i :: 0 <= i < |parts| ==> sep !in parts[i]
    ensures |parts[0]| <= |s|
    ensures sep !in s ==> parts == [s]
    ensures sep in s ==> |parts[0]| < |s|
    decreases |s|
  {
    if |s| == 0 then [""]
    else if s[0] == sep then [""] + Split(s[1..], sep)
    else
      var rest := Split(s[1..], sep);
      assert s == [s[0]] + s[1..];
      [[s[0]] + rest[0]] + rest[1..]
  }

  /** Python's `sep.join(parts)`, the inverse of Split. */
  function Join(parts: seq<string>, sep: char): string
    requires |parts| >= 1
    decreases |parts|
  {
    if |parts| == 1 then parts[0] else parts[0] + [sep] + Join(parts[1..], sep)
  }

  /** Joining the pieces of a split gives back the string. */
  lemma {:induction false} JoinSplit(s: string, sep: char)
    ensures Join(Split(s, sep), sep) == s
    decreases |s|
  {
    if |s| == 0 {
    } else if s[0] == sep {
      JoinSplit(s[1..], sep);
      assert s == [sep] + s[1..];
    } else {
      var rest := Split(s[1..], sep);
      JoinSplit(s[1..], sep);
      var parts := Split(s, sep);
      assert parts[0] == [s[0]] + rest[0];
      if |rest| == 1 {
        assert s == [s[0]] + s[1..];
      } else {
        assert parts[1..] == rest[1..];
        assert Join(rest, sep) == rest[0] + [sep] + Join(rest[1..], sep);
        assert s == [s[0]] + s[1..];
      }
    }
  }

  /** A separator-free head splits off as its own piece. */
  lemma {:induction false} SplitAfterHead(a: string, sep: char, b: string)
    requires sep !in a
    ensures Split(a + [sep] + b, sep) == [a] + Split(b, sep)
    decreases |a|
  {
    var s := a + [sep] + b;
    if |a| == 0 {
      assert s == [sep] + b;
      assert s[1..] == b;
    } else {
      assert s[0] == a[0];
      assert s[1..] == a[1..] + [sep] + b;
      SplitAfterHead(a[1..], sep, b);
      assert [a[0]] + a[1..] == a;
    }
  }

  /** Splitting a join of separator-free pieces gives back the pieces. */
  lemma {:induction false} SplitJoin(parts: seq<string>, sep: char)
    requires |parts| >= 1
    requires forall i :: 0 <= i < |parts| ==> sep !in parts[i]
    ensures Split(Join(parts, sep), sep) == parts
    decreases |parts|
  {
    if |parts| > 1 {
      SplitJoin(parts[1..], sep);
      SplitAfterHead(parts[0], sep, Join(parts[1..], sep));
      assert parts == [parts[0]] + parts[1..];
    }
  }

  /** The character of a decimal digit. */
  function DigitChar(d: nat): (c: char)
    requires d < 10
    ensures '0' <= c <= '9'
    ensures c as int - '0' as int == d
  {
    (48 + d) as char
  }

  /** Python's `str(n)` for a natural number: its decimal digits, most
      significant first. */
  function NatToString(n: nat): (s: string)
    ensures |s| >= 1
    ensures forall i :: 0 <= i < |s| ==> '0' <= s[i] <= '9'
    decreases n
  {
    if n < 10 then [DigitChar(n)] else NatToString(n / 10) + [DigitChar(n % 10)]
  }

  predicate IsDigits(s: string) {
    forall i :: 0 <= i < |s| ==> '0' <= s[i] <= '9'
  }

  /** The number a string of decimal digits denotes. */
  function ParseNat(s: string): nat
    requires IsDigits(s)
    decreases |s|
  {
    if |s| == 0 then 0
    else 10 * ParseNat(s[..|s| - 1]) + (s[|s| - 1] as int - '0' as int)
  }

  /** Reading back the decimal digits of `n` gives `n`. */
  lemma {:induction false} ParseNatToString(n: nat)
    ensures ParseNat(NatToString(n)) == n
    decreases n
  {
    var s := NatToString(n);
    if n >= 10 {
      ParseNatToString(n / 10);
      assert s[..|s| - 1] == NatToString(n / 10);
    }
  }

  /** The key of the `n`th monitored cell of chemistry `cellType`: `cell_{n}_{cellType}`. */
  function CellKey(n: nat, cellType: string): (key: string)
    ensures |key| == 6 + |NatToString(n)| + |cellType|
  {
    "cell" + [Separator] + NatToString(n) + [Separator] + cellType
  }

  /** The number of occurrences of `c` in `s`. */
  function Count(s: string, c: char): nat
    decreases |s|
  {
    if |s| == 0 then 0 else (if s[0] == c then 1 else 0) + Count(s[1..], c)
  }

  /** A split yields one piece more than the string has separators. */
  lemma {:induction false} SplitCount(s: string, sep: char)
    ensures |Split(s, sep)| == 1 + Count(s, sep)
    decreases |s|
  {
    if |s| > 0 {
      SplitCount(s[1..], sep);
    }
  }

  /** `key.split('_')[2]`, or None where Python raises IndexError (fewer than
      three pieces): present exactly when the key holds at least two
      separators, and then a separator-free piece. */
  function ChemistryOf(key: string): (r: Option<string>)
    ensures r.Some? <==> Count(key, Separator) >= 2
    ensures r.Some? ==> Separator !in r.value
  {
    SplitCount(key, Separator);
    var parts := Split(key, Separator);
    if |parts| > 2 then Some(parts[2]) else None
  }

  /** A key the source's parse can handle. */
  predicate WellFormedKey(key: string) {
    ChemistryOf(key).Some?
  }

  /** A cell key splits into "cell", the decimal index, and the pieces of the chemistry. */
  lemma CellKeySplit(n: nat, cellType: string)
    ensures Split(CellKey(n, cellType), Separator) == ["cell", NatToString(n)] + Split(cellType, Separator)
  {
    var digits := NatToString(n);
    assert Separator !in digits;
    SplitAfterHead(digits, Separator, cellType);
    assert CellKey(n, cellType) == "cell" + [Separator] + (digits + [Separator] + cellType);
    SplitAfterHead("cell", Separator, digits + [Separator] + cellType);
  }

  /** Every built key parses, and the parse returns the chemistry exactly when
      the chemistry contains no separator; otherwise it returns only the part
      before its first separator. */
  lemma CellKeyRoundTrip(n: nat, cellType: string)
    ensures WellFormedKey(CellKey(n, cellType))
    ensures ChemistryOf(CellKey(n, cellType)) == Some(Split(cellType, Separator)[0])
    ensures ChemistryOf(CellKey(n, cellType)) == Some(cellType) <==> Separator !in cellType
  {
    CellKeySplit(n, cellType);
  }

  /** Different cell indices or chemistries give different keys. */
  lemma CellKeyInjective(a: nat, s: string, b: nat, t: string)
    requires CellKey(a, s) == CellKey(b, t)
    ensures a == b && s == t
  {
    CellKeySplit(a, s);
    CellKeySplit(b, t);
    assert NatToString(a) == Split(CellKey(a, s), Separator)[1];
    ParseNatToString(a);
    ParseNatToString(b);
    var prefix := "cell" + [Separator] + NatToString(a) + [Separator];
    assert CellKey(a, s) == prefix + s;
    assert CellKey(b, t) == prefix + t;
    assert s == (prefix + s)[|prefix|..];
    assert t == (prefix + t)[|prefix|..];
  }
}
