/**
 * The few pieces of Python's `str` behaviour the simulator and the snapshot parsers
 * rely on: `split` and `rpartition` on a one-character separator, `str(int)` and
 * `int(str)` for decimal numbers, `startswith`, and the substring test `key in s`.
 */
module Text {
  import opened Wrappers

  /** Python's `s.split(sep)` for a one-character `sep`: the pieces between separators, in order. */
  function Split(s: string, sep: char): (parts: seq<string>)
    ensures |parts| >= 1
    ensures forall i :: 0 <= i < |parts| ==> sep !in parts[i]
    decreases |s|
  {
    if s == [] then [[]]
    else
      var rest := Split(s[1..], sep);
      if s[0] == sep then [[]] + rest
      else [[s[0]] + rest[0]] + rest[1..]
  }

  /** Python's `sep.join(parts)`. */
  function Join(parts: seq<string>, sep: char): string
    requires |parts| >= 1
    decreases |parts|
  {
    if |parts| == 1 then parts[0] else parts[0] + [sep] + Join(parts[1..], sep)
  }

  /** Python's `s.split(sep)[-1]`: the text after the last separator (all of `s` when there is none). */
  function LastPiece(s: string, sep: char): string {
    var parts := Split(s, sep);
    parts[|parts| - 1]
  }

  /** Joining the pieces of a split gives back the string. */
  lemma {:induction false} JoinSplit(s: string, sep: char)
    ensures Join(Split(s, sep), sep) == s
    decreases |s|
  {
    if s != [] {
      JoinSplit(s[1..], sep);
      var rest := Split(s[1..], sep);
      if s[0] == sep {
        assert Split(s, sep) == [[]] + rest;
        assert ([[]] + rest)[1..] == rest;
      } else {
        var parts := [[s[0]] + rest[0]] + rest[1..];
        assert Split(s, sep) == parts;
        assert parts[1..] == rest[1..];
        if |rest| > 1 {
          assert Join(parts, sep) == [s[0]] + (rest[0] + [sep] + Join(rest[1..], sep));
        }
        assert Join(parts, sep) == [s[0]] + Join(rest, sep);
      }
    }
  }

  /** Splitting pieces that hold no separator, once joined, gives back the pieces. */
  lemma {:induction false} SplitJoin(parts: seq<string>, sep: char)
    requires |parts| >= 1
    requires forall i :: 0 <= i < |parts| ==> sep !in parts[i]
    ensures Split(Join(parts, sep), sep) == parts
    decreases |parts|
  {
    SplitWithoutSep(parts[0], sep);
    if |parts| > 1 {
      SplitJoin(parts[1..], sep);
      SplitAround(parts[0], sep, Join(parts[1..], sep));
      assert [parts[0]] + parts[1..] == parts;
    }
  }

  /** A separator splits the text around it into the pieces of either side. */
  lemma {:induction false} SplitAround(a: string, sep: char, b: string)
    ensures Split(a + [sep] + b, sep) == Split(a, sep) + Split(b, sep)
    decreases |a|
  {
    if a == [] {
      assert a + [sep] + b == [sep] + b;
      SplitCons(sep, b, sep);
    } else {
      var t := a[1..] + [sep] + b;
      SplitAround(a[1..], sep, b);
      SplitCons(a[0], t, sep);
      SplitCons(a[0], a[1..], sep);
      PushPieces(a[0], sep, Split(a[1..], sep), Split(b, sep));
      assert [a[0]] + a[1..] == a;
      assert [a[0]] + t == a + [sep] + b;
    }
  }

  /** How `Split` extends its pieces when one character comes in front. */
  function PushPiece(c: char, sep: char, parts: seq<string>): seq<string>
    requires |parts| >= 1
  {
    if c == sep then [[]] + parts else [[c] + parts[0]] + parts[1..]
  }

  /** Pushing a character onto pieces only touches the first of them. */
  lemma PushPieces(c: char, sep: char, left: seq<string>, right: seq<string>)
    requires |left| >= 1
    ensures PushPiece(c, sep, left + right) == PushPiece(c, sep, left) + right
  {
    if c != sep {
      assert (left + right)[1..] == left[1..] + right;
    }
  }

  /** One step of `Split`, stated for a string written as its first character and the rest. */
  lemma SplitCons(c: char, t: string, sep: char)
    ensures Split([c] + t, sep) == PushPiece(c, sep, Split(t, sep))
  {
    assert ([c] + t)[1..] == t;
  }

  /** Text without a separator is one piece. */
  lemma {:induction false} SplitWithoutSep(s: string, sep: char)
    requires sep !in s
    ensures Split(s, sep) == [s]
    decreases |s|
  {
    if s != [] {
      SplitWithoutSep(s[1..], sep);
      assert [s[0]] + s[1..] == s;
    }
  }

  /** `(a + sep + b).split(sep)[-1] == b` when `b` holds no separator. */
  lemma LastPieceAfterSep(a: string, sep: char, b: string)
    requires sep !in b
    ensures LastPiece(a + [sep] + b, sep) == b
  {
    SplitAround(a, sep, b);
    SplitWithoutSep(b, sep);
  }

  /** Python's `s.rpartition(sep)` without the middle element: `found` says whether it was `sep` or `""`. */
  datatype Partition = Partition(head: string, found: bool, tail: string)

  function RPartition(s: string, sep: char): (p: Partition)
    ensures p.found <==> sep in s
    ensures p.found ==> s == p.head + [sep] + p.tail && sep !in p.tail
    ensures !p.found ==> p.head == [] && p.tail == s
    decreases |s|
  {
    if s == [] then Partition([], false, [])
    else
      var last := s[|s| - 1];
      assert s == s[..|s| - 1] + [last];
      if last == sep then Partition(s[..|s| - 1], true, [])
      else
        var p := RPartition(s[..|s| - 1], sep);
        if p.found then Partition(p.head, true, p.tail + [last])
        else Partition([], false, s)
  }

  predicate IsDigit(c: char) {
    '0' <= c <= '9'
  }

  function DigitValue(c: char): nat
    requires IsDigit(c)
  {
    c as int - '0' as int
  }

  function DigitChar(d: nat): (c: char)
    requires d < 10
    ensures IsDigit(c) && DigitValue(c) == d
  {
    ('0' as int + d) as char
  }

  /** Decimal digits of `n`, most significant first, no leading zero: Python's `str(n)` for `n >= 0`. */
  function NatToString(n: nat): (s: string)
    ensures |s| >= 1
    ensures forall i :: 0 <= i < |s| ==> IsDigit(s[i])
  {
    if n < 10 then [DigitChar(n)] else NatToString(n / 10) + [DigitChar(n % 10)]
  }

  /** Python's `str(i)` for an `int`. */
  function IntToString(i: int): string {
    if i < 0 then "-" + NatToString(-i) else NatToString(i)
  }

  /** `str(i)` is non-empty and holds nothing but digits and a minus sign. */
  lemma IntToStringChars(i: int)
    ensures IntToString(i) != []
    ensures forall c :: c in IntToString(i) ==> IsDigit(c) || c == '-'
  {
    var digits := NatToString(if i < 0 then -i else i);
    assert forall c :: c in digits ==> IsDigit(c);
    if i < 0 {
      assert IntToString(i) == "-" + digits;
    }
  }

  /** The value of a non-empty run of ASCII digits (leading zeros allowed), `None` for anything else. */
  function ParseNat(s: string): (r: Option<nat>)
    ensures r.Some? <==> s != [] && forall i :: 0 <= i < |s| ==> IsDigit(s[i])
    decreases |s|
  {
    if s == [] || !IsDigit(s[|s| - 1]) then None
    else if |s| == 1 then Some(DigitValue(s[0]))
    else
      match ParseNat(s[..|s| - 1])
      case None => None
      case Some(n) => Some(n * 10 + DigitValue(s[|s| - 1]))
  }

  /** Python's `int(s)` on text: an optional sign followed by decimal digits; `None` where Python raises `ValueError`. */
  function ParseInt(s: string): Option<int> {
    if |s| > 0 && (s[0] == '-' || s[0] == '+') then
      match ParseNat(s[1..])
      case None => None
      case Some(n) => Some(if s[0] == '-' then -(n as int) else n as int)
    else
      match ParseNat(s)
      case None => None
      case Some(n) => Some(n)
  }

  lemma {:induction false} ParseNatToString(n: nat)
    ensures ParseNat(NatToString(n)) == Some(n)
  {
    if n >= 10 {
      ParseNatToString(n / 10);
      var s := NatToString(n);
      assert s[..|s| - 1] == NatToString(n / 10);
    }
  }

  /** `int(str(i)) == i`: the decimal rendering parses back to the same number. */
  lemma ParseIntToString(i: int)
    ensures ParseInt(IntToString(i)) == Some(i)
  {
    if i < 0 {
      var digits := NatToString(-i);
      ParseNatToString(-i);
      var s := "-" + digits;
      assert s[0] == '-' && s[1..] == digits;
      assert IntToString(i) == s;
    } else {
      ParseNatToString(i);
      var s := NatToString(i);
      assert IsDigit(s[0]);
      assert s[0] != '-' && s[0] != '+';
      assert IntToString(i) == s;
    }
  }

  /** Python's `s.startswith(prefix)`. */
  predicate StartsWith(s: string, prefix: string) {
    prefix <= s
  }

  /** Python's `needle in hay` on strings: `needle` occurs as a contiguous run of `hay`. */
  predicate IsSubstring(needle: string, hay: string)
    decreases |hay|
  {
    needle <= hay || (hay != [] && IsSubstring(needle, hay[1..]))
  }

  /** For a one-character key, the substring test is plain membership. */
  lemma {:induction false} SingleCharSubstring(c: char, hay: string)
    ensures IsSubstring([c], hay) <==> c in hay
    decreases |hay|
  {
    if hay != [] {
      SingleCharSubstring(c, hay[1..]);
      assert hay == [hay[0]] + hay[1..];
    }
  }
}
