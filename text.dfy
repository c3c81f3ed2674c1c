/** The Python string operations the modelled code relies on: `str.isspace`,
    `strip`/`lstrip`, `lower` (ASCII letters only), `split` on one character,
    `join`, `startswith`, and the decimal and zero-padded rendering of
    integers in f-strings. */
module Text {

  /** Python's `str.isspace` for one character: the characters Python treats
      as white space. */
  predicate IsSpace(c: char) {
    c == ' ' || c == '\t' || c == '\n' || c == '\r' || c == '\U{000B}' || c == '\U{000C}'
    || ('\U{001C}' <= c <= '\U{001F}') || c == '\U{0085}' || c == '\U{00A0}' || c == '\U{1680}'
    || ('\U{2000}' <= c <= '\U{200A}') || c == '\U{2028}' || c == '\U{2029}' || c == '\U{202F}'
    || c == '\U{205F}' || c == '\U{3000}'
  }

  predicate IsBlank(s: string) {
    forall i :: 0 <= i < |s| ==> IsSpace(s[i])
  }

  /** A string with no white space at either end. */
  predicate IsStripped(s: string) {
    s == [] || (!IsSpace(s[0]) && !IsSpace(s[|s| - 1]))
  }

  /** `s.lstrip()`: the suffix of `s` that starts at its first non-space character. */
  function LStrip(s: string): (r: string)
    ensures |r| <= |s| && r == s[|s| - |r|..]
    ensures r != [] ==> !IsSpace(r[0])
    ensures forall i :: 0 <= i < |s| - |r| ==> IsSpace(s[i])
  {
    if s != [] && IsSpace(s[0]) then LStrip(s[1..]) else s
  }

  /** `s.rstrip()`: the prefix of `s` that ends at its last non-space character. */
  function RStrip(s: string): (r: string)
    ensures |r| <= |s| && r == s[..|r|]
    ensures r != [] ==> !IsSpace(r[|r| - 1])
    ensures forall i :: |r| <= i < |s| ==> IsSpace(s[i])
  {
    if s != [] && IsSpace(s[|s| - 1]) then RStrip(s[..|s| - 1]) else s
  }

  /** `s.strip()`. */
  function Strip(s: string): (r: string)
    ensures IsStripped(r)
    ensures |r| <= |s|
  {
    RStrip(LStrip(s))
  }

  /** Stripping leaves a stripped string alone, and a blank before it does not
      survive stripping. */
  lemma StripAfterSpace(pad: string, s: string)
    requires IsBlank(pad) && IsStripped(s)
    ensures Strip(pad + s) == s
  {
    if s == [] {
      assert pad + s == pad;
      assert LStrip(pad) == [];
    } else {
      var t := pad + s;
      var l := LStrip(t);
      assert t[|pad|] == s[0];
      assert |l| == |s|;
      assert l == s;
      assert RStrip(s) == s;
    }
  }

  /** ASCII `str.lower()` for one character. */
  function LowerChar(c: char): char {
    if 'A' <= c <= 'Z' then (c as int - 'A' as int + 'a' as int) as char else c
  }

  /** `s.lower()`, character by character. */
  function Lower(s: string): (r: string)
    ensures |r| == |s|
    ensures forall i :: 0 <= i < |s| ==> r[i] == LowerChar(s[i])
  {
    if s == [] then [] else [LowerChar(s[0])] + Lower(s[1..])
  }

  /** Two strings that differ only in the case of their letters. */
  predicate EqualIgnoringCase(a: string, b: string) {
    |a| == |b| && forall i :: 0 <= i < |a| ==> LowerChar(a[i]) == LowerChar(b[i])
  }

  lemma {:induction false} LowerIdentifiesCaseVariants(a: string, b: string)
    ensures Lower(a) == Lower(b) <==> EqualIgnoringCase(a, b)
  {
    if EqualIgnoringCase(a, b) {
      assert forall i :: 0 <= i < |a| ==> Lower(a)[i] == Lower(b)[i];
    }
    if Lower(a) == Lower(b) {
      assert forall i :: 0 <= i < |a| ==> LowerChar(a[i]) == Lower(a)[i];
    }
  }

  /** Lower-casing twice is lower-casing once. */
  lemma LowerIdempotent(s: string)
    ensures Lower(Lower(s)) == Lower(s)
  {
    assert forall i :: 0 <= i < |s| ==> LowerChar(LowerChar(s[i])) == LowerChar(s[i]);
  }

  /** `s.startswith(prefix)`. */
  predicate StartsWith(s: string, prefix: string) {
    |prefix| <= |s| && s[..|prefix|] == prefix
  }

  /** `s.split(sep)` for a one-character separator: the pieces between
      separators, always at least one. */
  function Split(s: string, sep: char): (r: seq<string>)
    ensures |r| >= 1
  {
    if s == [] then [[]]
    else
      var rest := Split(s[1..], sep);
      if s[0] == sep then [[]] + rest else [[s[0]] + rest[0]] + rest[1..]
  }

  /** No piece of a split holds the separator. */
  lemma {:induction false} SplitPiecesLackSeparator(s: string, sep: char)
    ensures forall i :: 0 <= i < |Split(s, sep)| ==> sep !in Split(s, sep)[i]
  {
    if s != [] {
      SplitPiecesLackSeparator(s[1..], sep);
      var rest := Split(s[1..], sep);
      if s[0] != sep {
        assert sep !in [s[0]] + rest[0];
      }
    }
  }

  /** `sep.join(xs)`. */
  function Join(xs: seq<string>, sep: string): string {
    if |xs| == 0 then [] else if |xs| == 1 then xs[0] else xs[0] + sep + Join(xs[1..], sep)
  }

  lemma SplitCons(x: char, s: string, sep: char)
    ensures Split([x] + s, sep) ==
      if x == sep then [[]] + Split(s, sep) else [[x] + Split(s, sep)[0]] + Split(s, sep)[1..]
  {
    assert ([x] + s)[1..] == s;
  }

  /** A string without the separator is one piece. */
  lemma {:induction false} SplitWithoutSeparator(s: string, sep: char)
    requires sep !in s
    ensures Split(s, sep) == [s]
  {
    if s != [] {
      SplitWithoutSeparator(s[1..], sep);
      assert s == [s[0]] + s[1..];
      SplitCons(s[0], s[1..], sep);
    }
  }

  /** Splitting at a separator splits the two sides independently. */
  lemma {:induction false} SplitAround(a: string, b: string, sep: char)
    ensures Split(a + [sep] + b, sep) == Split(a, sep) + Split(b, sep)
  {
    if a == [] {
      assert a + [sep] + b == [sep] + b;
      SplitCons(sep, b, sep);
    } else {
      var x, rest := a[0], a[1..];
      SplitAround(rest, b, sep);
      assert a + [sep] + b == [x] + (rest + [sep] + b);
      assert a == [x] + rest;
      SplitAroundCons(x, rest, b, sep);
    }
  }

  /** One step of SplitAround: a character in front of the left side. */
  lemma SplitAroundCons(x: char, rest: string, b: string, sep: char)
    requires Split(rest + [sep] + b, sep) == Split(rest, sep) + Split(b, sep)
    ensures Split([x] + (rest + [sep] + b), sep) == Split([x] + rest, sep) + Split(b, sep)
  {
    var t := rest + [sep] + b;
    var whole, left := Split([x] + t, sep), Split([x] + rest, sep);
    var inner, head := Split(t, sep), Split(rest, sep);
    assert whole == if x == sep then [[]] + inner else [[x] + inner[0]] + inner[1..] by {
      SplitCons(x, t, sep);
    }
    assert left == if x == sep then [[]] + head else [[x] + head[0]] + head[1..] by {
      SplitCons(x, rest, sep);
    }
    ConsPieces(x == sep, x, whole, left, inner, head, Split(b, sep));
  }

  /** Putting a character in front of the first piece, or an empty piece in
      front of all, commutes with adding pieces at the end. */
  lemma ConsPieces(isSep: bool, x: char, whole: seq<string>, left: seq<string>,
                   inner: seq<string>, head: seq<string>, tail: seq<string>)
    requires |head| >= 1 && inner == head + tail
    requires whole == if isSep then [[]] + inner else [[x] + inner[0]] + inner[1..]
    requires left == if isSep then [[]] + head else [[x] + head[0]] + head[1..]
    ensures whole == left + tail
  {
    if !isSep {
      assert inner[1..] == head[1..] + tail;
    }
  }

  /** Joining names with `sep` followed by `pad` and splitting on `sep` gives
      back the first name and every later one preceded by `pad`. */
  lemma {:induction false} SplitJoined(names: seq<string>, sep: char, pad: string)
    requires |names| >= 1
    requires sep !in pad
    requires forall i :: 0 <= i < |names| ==> sep !in names[i]
    ensures Split(Join(names, [sep] + pad), sep) ==
      [names[0]] + seq(|names| - 1, i requires 0 <= i < |names| - 1 => pad + names[i + 1])
  {
    if |names| == 1 {
      SplitWithoutSeparator(names[0], sep);
    } else {
      var first, rest := names[0], names[1..];
      var tail := Join(rest, [sep] + pad);
      var pieces := Split(tail, sep);
      assert Split(Join(names, [sep] + pad), sep) == [first] + ([pad + pieces[0]] + pieces[1..]) by {
        assert Join(names, [sep] + pad) == first + [sep] + (pad + tail);
        SplitAround(first, pad + tail, sep);
        SplitWithoutSeparator(first, sep);
        SplitBehindPad(pad, tail, sep);
      }
      assert pieces == [rest[0]] + seq(|rest| - 1, i requires 0 <= i < |rest| - 1 => pad + rest[i + 1]) by {
        SplitJoined(rest, sep, pad);
      }
      PadPieces(first, pad, pieces, rest);
      assert seq(|names| - 1, i requires 0 <= i < |names| - 1 => pad + names[i + 1])
          == seq(|rest|, i requires 0 <= i < |rest| => pad + rest[i]);
    }
  }

  /** The pieces behind the first name, each with the pad in front. */
  lemma PadPieces(first: string, pad: string, pieces: seq<string>, rest: seq<string>)
    requires |rest| >= 1
    requires pieces == [rest[0]] + seq(|rest| - 1, i requires 0 <= i < |rest| - 1 => pad + rest[i + 1])
    ensures [first] + ([pad + pieces[0]] + pieces[1..]) == [first] + seq(|rest|, i requires 0 <= i < |rest| => pad + rest[i])
  {
    assert [pad + pieces[0]] + pieces[1..] == seq(|rest|, i requires 0 <= i < |rest| => pad + rest[i]);
  }

  lemma {:induction false} SplitBehindPad(pad: string, s: string, sep: char)
    requires sep !in pad
    ensures Split(pad + s, sep) == [pad + Split(s, sep)[0]] + Split(s, sep)[1..]
  {
    if pad != [] {
      assert pad + s == [pad[0]] + (pad[1..] + s);
      SplitCons(pad[0], pad[1..] + s, sep);
      SplitBehindPad(pad[1..], s, sep);
      var inner := Split(pad[1..] + s, sep);
      assert inner[0] == pad[1..] + Split(s, sep)[0];
      assert inner[1..] == Split(s, sep)[1..];
      assert [pad[0]] + (pad[1..] + Split(s, sep)[0]) == pad + Split(s, sep)[0];
    } else {
      assert pad + s == s;
      assert pad + Split(s, sep)[0] == Split(s, sep)[0];
      assert Split(s, sep) == [Split(s, sep)[0]] + Split(s, sep)[1..];
    }
  }

  function DigitChar(d: nat): char
    requires d < 10
  {
    "0123456789"[d]
  }

  /** The decimal rendering of a natural number, as `str(n)` gives it. */
  function NatToString(n: nat): (r: string)
    ensures 1 <= |r|
  {
    if n < 10 then [DigitChar(n)] else NatToString(n / 10) + [DigitChar(n % 10)]
  }

  /** `str(i)` for any integer. */
  function IntToString(i: int): string {
    if i < 0 then "-" + NatToString(-i) else NatToString(i)
  }

  /** `s` left-padded with '0' to at least `width` characters, as the format
      spec `0<width>` pads a rendered number. */
  function ZeroPad(s: string, width: nat): (r: string)
    ensures |r| == if |s| >= width then |s| else width
    ensures |s| >= width ==> r == s
    decreases width - |s|
  {
    if |s| >= width then s else ZeroPad("0" + s, width)
  }

  /** Padding keeps `s` at the end and puts only '0' in front of it. */
  lemma {:induction false} ZeroPadKeepsDigits(s: string, width: nat)
    ensures var r := ZeroPad(s, width);
      && r[|r| - |s|..] == s
      && forall i :: 0 <= i < |r| - |s| ==> r[i] == '0'
    decreases width - |s|
  {
    if |s| < width {
      ZeroPadKeepsDigits("0" + s, width);
      var r := ZeroPad(s, width);
      assert r[|r| - |s|..] == r[|r| - |s| - 1..][1..];
    }
  }

  function Pow10(k: nat): (r: nat)
    ensures r >= 1
  {
    if k == 0 then 1 else 10 * Pow10(k - 1)
  }

  /** A number of at least 10^k needs more than k digits. */
  lemma {:induction false} ManyDigits(n: nat, k: nat)
    requires n >= Pow10(k)
    ensures |NatToString(n)| > k
  {
    if k > 0 {
      assert n >= 10;
      assert n / 10 >= Pow10(k - 1);
      ManyDigits(n / 10, k - 1);
    }
  }
}
