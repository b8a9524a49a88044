/** String operations of the Go standard library that the daemon relies on.
    A string is a sequence of bytes written as characters; white space and
    letter case are the ASCII ones. */
module Text {

  datatype Option<+T> = None | Some(value: T)

  // ---- splitting and joining on one separator ----

  predicate Free(s: string, c: char) { c !in s }

  function Split(s: string, sep: char): (r: seq<string>)
    ensures |r| >= 1
  {
    if s == "" then [""]
    else
      var rest := Split(s[1..], sep);
      if s[0] == sep then [""] + rest else [[s[0]] + rest[0]] + rest[1..]
  }

  function Join(parts: seq<string>, sep: string): string {
    if parts == [] then ""
    else if |parts| == 1 then parts[0]
    else parts[0] + sep + Join(parts[1..], sep)
  }

  lemma {:induction false} SplitFree(p: string, sep: char)
    requires Free(p, sep)
    ensures Split(p, sep) == [p]
  {
    if p != "" {
      SplitFree(p[1..], sep);
      assert [p[0]] + p[1..] == p;
    }
  }

  lemma {:induction false} SplitCons(p: string, sep: char, s: string)
    requires Free(p, sep)
    ensures Split(p + [sep] + s, sep) == [p] + Split(s, sep)
  {
    var whole := p + [sep] + s;
    if p == "" {
      assert whole[1..] == s;
    } else {
      SplitCons(p[1..], sep, s);
      assert whole[1..] == p[1..] + [sep] + s;
      assert [p[0]] + p[1..] == p;
    }
  }

  /** Splitting undoes joining, so joining separator-free parts is injective. */
  lemma {:induction false} SplitJoin(parts: seq<string>, sep: char)
    requires parts != []
    requires forall p <- parts :: Free(p, sep)
    ensures Split(Join(parts, [sep]), sep) == parts
  {
    if |parts| == 1 {
      SplitFree(parts[0], sep);
    } else {
      var rest := parts[1..];
      forall p <- rest ensures Free(p, sep) { assert p in parts; }
      SplitJoin(rest, sep);
      SplitCons(parts[0], sep, Join(rest, [sep]));
      assert parts == [parts[0]] + rest;
    }
  }

  lemma {:induction false} SplitParts(s: string, sep: char)
    ensures forall p <- Split(s, sep) :: Free(p, sep)
  {
    if s != "" {
      var rest := Split(s[1..], sep);
      SplitParts(s[1..], sep);
      assert rest[0] in rest;
    }
  }

  lemma JoinHead(c: char, rest: seq<string>, sep: string)
    requires rest != []
    ensures Join([[c] + rest[0]] + rest[1..], sep) == [c] + Join(rest, sep)
  {
    assert ([[c] + rest[0]] + rest[1..])[1..] == rest[1..];
    if |rest| > 1 {
      assert [c] + rest[0] + sep + Join(rest[1..], sep) == [c] + (rest[0] + sep + Join(rest[1..], sep));
    }
  }

  /** Joining undoes splitting. */
  lemma {:induction false} JoinSplit(s: string, sep: char)
    ensures Join(Split(s, sep), [sep]) == s
  {
    if s != "" {
      var rest := Split(s[1..], sep);
      JoinSplit(s[1..], sep);
      assert [s[0]] + s[1..] == s;
      if s[0] == sep {
        assert ([""] + rest)[1..] == rest;
        assert "" + [sep] + Join(rest, [sep]) == [sep] + Join(rest, [sep]);
      } else {
        JoinHead(s[0], rest, [sep]);
      }
    }
  }

  // ---- cutting and trimming ----

  function Index(s: string, c: char): (i: nat)
    ensures i <= |s|
    ensures Free(s[..i], c)
    ensures i < |s| ==> s[i] == c
  {
    if s == "" || s[0] == c then 0 else 1 + Index(s[1..], c)
  }

  /** The text before the first `c`, the text after it, and whether it occurs. */
  function Cut(s: string, c: char): (string, string, bool) {
    var i := Index(s, c);
    if i < |s| then (s[..i], s[i + 1..], true) else (s, "", false)
  }

  lemma {:induction false} IndexAt(p: string, c: char, s: string)
    requires Free(p, c)
    ensures Index(p + [c] + s, c) == |p|
    ensures Index(p, c) == |p|
  {
    if p != "" {
      assert (p + [c] + s)[1..] == p[1..] + [c] + s;
      IndexAt(p[1..], c, s);
    }
  }

  lemma CutAt(p: string, c: char, s: string)
    requires Free(p, c)
    ensures Cut(p + [c] + s, c) == (p, s, true)
    ensures Cut(p, c) == (p, "", false)
  {
    IndexAt(p, c, s);
    assert (p + [c] + s)[..|p|] == p;
    assert (p + [c] + s)[|p| + 1..] == s;
  }

  predicate HasPrefix(s: string, p: string) { p <= s }

  predicate HasSuffix(s: string, p: string) {
    |p| <= |s| && s[|s| - |p|..] == p
  }

  function TrimSuffix(s: string, c: char): string {
    if s != "" && s[|s| - 1] == c then s[..|s| - 1] else s
  }

  function TrimLeft(s: string, cs: set<char>): (r: string)
    ensures r == "" || r[0] !in cs
  {
    if s != "" && s[0] in cs then TrimLeft(s[1..], cs) else s
  }

  function TrimRight(s: string, cs: set<char>): (r: string)
    ensures r == "" || r[|r| - 1] !in cs
  {
    if s != "" && s[|s| - 1] in cs then TrimRight(s[..|s| - 1], cs) else s
  }

  const SPACES: set<char> := {' ', '\t', '\n', '\r', '\U{0B}', '\U{0C}'}

  predicate IsSpace(c: char) { c in SPACES }

  function TrimSpace(s: string): string {
    TrimRight(TrimLeft(s, SPACES), SPACES)
  }

  // ---- fields: the maximal runs of non-space characters ----

  function WordLen(s: string): (n: nat)
    ensures n <= |s|
    ensures s != "" && !IsSpace(s[0]) ==> n > 0
  {
    if s == "" || IsSpace(s[0]) then 0 else 1 + WordLen(s[1..])
  }

  function Fields(s: string): seq<string>
    decreases |s|
  {
    if s == "" then []
    else if IsSpace(s[0]) then Fields(s[1..])
    else [s[..WordLen(s)]] + Fields(s[WordLen(s)..])
  }

  predicate IsWord(w: string) {
    w != "" && forall c <- w :: !IsSpace(c)
  }

  lemma {:induction false} WordLenOf(w: string, s: string)
    requires forall c <- w :: !IsSpace(c)
    requires s == "" || IsSpace(s[0])
    ensures WordLen(w + s) == |w|
  {
    if w == "" {
      assert w + s == s;
    } else {
      assert (w + s)[1..] == w[1..] + s;
      WordLenOf(w[1..], s);
    }
  }

  lemma FieldsWord(w: string, s: string)
    requires IsWord(w)
    requires s == "" || IsSpace(s[0])
    ensures Fields(w + s) == [w] + Fields(s)
  {
    WordLenOf(w, s);
    assert (w + s)[..|w|] == w && (w + s)[|w|..] == s;
  }

  lemma {:induction false} WordLenMore(s: string, c: char)
    requires IsSpace(c)
    ensures WordLen(s + [c]) == WordLen(s)
  {
    if s != "" && !IsSpace(s[0]) {
      assert (s + [c])[1..] == s[1..] + [c];
      WordLenMore(s[1..], c);
    }
  }

  lemma {:induction false} FieldsTrailing(s: string, c: char)
    requires IsSpace(c)
    ensures Fields(s + [c]) == Fields(s)
    decreases |s|
  {
    if s == "" {
      assert (s + [c])[1..] == "";
    } else if IsSpace(s[0]) {
      assert (s + [c])[1..] == s[1..] + [c];
      FieldsTrailing(s[1..], c);
    } else {
      WordLenMore(s, c);
      var n := WordLen(s);
      assert (s + [c])[..n] == s[..n];
      assert (s + [c])[n..] == s[n..] + [c];
      FieldsTrailing(s[n..], c);
    }
  }

  lemma {:induction false} FieldsTrimRight(s: string, cs: set<char>)
    requires cs <= SPACES
    ensures Fields(TrimRight(s, cs)) == Fields(s)
  {
    if s != "" && s[|s| - 1] in cs {
      FieldsTrimRight(s[..|s| - 1], cs);
      FieldsTrailing(s[..|s| - 1], s[|s| - 1]);
      assert s[..|s| - 1] + [s[|s| - 1]] == s;
    }
  }

  lemma {:induction false} FieldsTrimLeft(s: string)
    ensures Fields(TrimLeft(s, SPACES)) == Fields(s)
  {
    if s != "" && s[0] in SPACES {
      FieldsTrimLeft(s[1..]);
    }
  }

  lemma FieldsTrimSpace(s: string)
    ensures Fields(TrimSpace(s)) == Fields(s)
  {
    FieldsTrimRight(TrimLeft(s, SPACES), SPACES);
    FieldsTrimLeft(s);
  }

  lemma {:induction false} TrimLeftSkips(p: string, s: string)
    requires forall c <- p :: IsSpace(c)
    ensures TrimLeft(p + s, SPACES) == TrimLeft(s, SPACES)
  {
    if p == "" {
      assert p + s == s;
    } else {
      assert (p + s)[1..] == p[1..] + s && p[0] in p;
      TrimLeftSkips(p[1..], s);
    }
  }

  lemma {:induction false} TrimRightSkips(s: string, p: string)
    requires forall c <- p :: IsSpace(c)
    ensures TrimRight(s + p, SPACES) == TrimRight(s, SPACES)
  {
    if p == "" {
      assert s + p == s;
    } else {
      assert (s + p)[..|s + p| - 1] == s + p[..|p| - 1] && p[|p| - 1] in p;
      TrimRightSkips(s, p[..|p| - 1]);
    }
  }

  lemma {:induction false} TrimSpaceTrailing(s: string, p: string)
    requires forall c <- p :: IsSpace(c)
    ensures TrimSpace(s + p) == TrimSpace(s)
  {
    if s == "" {
      assert s + p == p + "";
      TrimLeftSkips(p, "");
      assert TrimLeft("", SPACES) == "";
    } else if s[0] in SPACES {
      assert (s + p)[1..] == s[1..] + p;
      TrimSpaceTrailing(s[1..], p);
    } else {
      TrimRightSkips(s, p);
    }
  }

  // ---- letter case ----

  function LowerChar(c: char): char {
    if 'A' <= c <= 'Z' then c + ('a' - 'A') else c
  }

  function Lower(s: string): (r: string)
    ensures |r| == |s|
    ensures forall i :: 0 <= i < |s| ==> r[i] == LowerChar(s[i])
  {
    seq(|s|, i requires 0 <= i < |s| => LowerChar(s[i]))
  }

  predicate EqualFold(a: string, b: string) { Lower(a) == Lower(b) }

  // ---- numbers ----

  /** The value of a digit in bases up to 16; 16 for any other character. */
  function DigitOf(c: char): (d: nat)
    ensures d <= 16
  {
    if '0' <= c <= '9' then (c - '0') as nat
    else if 'a' <= c <= 'f' then (c - 'a') as nat + 10
    else if 'A' <= c <= 'F' then (c - 'A') as nat + 10
    else 16
  }

  predicate AllDigits(s: string, base: nat) {
    forall c <- s :: DigitOf(c) < base
  }

  function Value(s: string, base: nat): nat {
    if s == "" then 0
    else Value(s[..|s| - 1], base) * base + DigitOf(s[|s| - 1])
  }

  function ParseUint(s: string, base: nat, limit: nat): Option<nat> {
    if s == "" || !AllDigits(s, base) || Value(s, base) >= limit then None
    else Some(Value(s, base))
  }

  /** A signed number in the range -half .. half - 1, with an optional sign. */
  function ParseInt(s: string, base: nat, half: nat): Option<int> {
    var signed := s != "" && (s[0] == '+' || s[0] == '-');
    var body := if signed then s[1..] else s;
    if body == "" || !AllDigits(body, base) then None
    else
      var n: int := Value(body, base);
      if signed && s[0] == '-' then (if n <= half then Some(-n) else None)
      else if n < half then Some(n) else None
  }

  const HALF32: nat := 0x8000_0000
  const HALF64: nat := 0x8000_0000_0000_0000
  const FULL64: nat := 0x1_0000_0000_0000_0000

  function Atoi(s: string): Option<int> { ParseInt(s, 10, HALF64) }

  function DigitChar(d: nat): (c: char)
    requires d < 16
    ensures DigitOf(c) == d
    ensures d < 10 ==> '0' <= c <= '9'
  {
    if d < 10 then '0' + d as char else 'A' + (d - 10) as char
  }

  function Digits(n: nat, base: nat): (s: string)
    requires base == 10 || base == 16
    ensures s != ""
  {
    if n < base then [DigitChar(n)]
    else if base == 10 then Digits(n / 10, 10) + [DigitChar(n % 10)]
    else Digits(n / 16, 16) + [DigitChar(n % 16)]
  }

  lemma OneDigit(d: nat, base: nat)
    requires d < base <= 16
    ensures AllDigits([DigitChar(d)], base) && Value([DigitChar(d)], base) == d
  {
    assert [DigitChar(d)][..0] == "";
    assert Value("", base) * base == 0;
  }

  /** Rendering a number in a base and reading it back gives the number. */
  lemma {:induction false} DigitsValue(n: nat, base: nat)
    requires base == 10 || base == 16
    ensures AllDigits(Digits(n, base), base) && Value(Digits(n, base), base) == n
  {
    if n < base {
      OneDigit(n, base);
    } else if base == 10 {
      DigitsValue(n / 10, 10);
      DigitsStep(Digits(n / 10, 10), n / 10, n % 10, 10);
    } else {
      DigitsValue(n / 16, 16);
      DigitsStep(Digits(n / 16, 16), n / 16, n % 16, 16);
    }
  }

  lemma DigitsStep(s: string, q: nat, r: nat, base: nat)
    requires r < base <= 16 && AllDigits(s, base) && Value(s, base) == q
    ensures AllDigits(s + [DigitChar(r)], base) && Value(s + [DigitChar(r)], base) == q * base + r
  {
    assert (s + [DigitChar(r)])[..|s|] == s;
  }

  lemma {:induction false} LeadingZero(s: string, base: nat)
    requires base > 0
    ensures Value("0" + s, base) == Value(s, base)
  {
    if s == "" {
      assert ("0" + s)[..0] == "";
    } else {
      LeadingZero(s[..|s| - 1], base);
      assert ("0" + s)[..|s|] == "0" + s[..|s| - 1];
    }
  }

  function Padded(s: string, width: nat): (r: string)
    decreases if |s| < width then width - |s| else 0
  {
    if |s| < width then Padded("0" + s, width) else s
  }

  lemma {:induction false} PaddedValue(s: string, width: nat, base: nat)
    requires base > 0 && AllDigits(s, base)
    ensures AllDigits(Padded(s, width), base) && |Padded(s, width)| >= |s|
    ensures Value(Padded(s, width), base) == Value(s, base)
    decreases if |s| < width then width - |s| else 0
  {
    if |s| < width {
      LeadingZero(s, base);
      PaddedValue("0" + s, width, base);
    }
  }

  /** Decimal rendering of a signed number. */
  function Itoa(n: int): string {
    if n < 0 then "-" + Digits(-n, 10) else Digits(n, 10)
  }

  lemma ItoaInjective(m: int, n: int)
    ensures Itoa(m) == Itoa(n) <==> m == n
  {
    if Itoa(m) == Itoa(n) {
      DigitsValue(if m < 0 then -m else m, 10);
      DigitsValue(if n < 0 then -n else n, 10);
      assert m < 0 <==> n < 0 by {
        assert DigitOf('-') == 16;
        assert Digits(if m < 0 then -m else m, 10)[0] in Digits(if m < 0 then -m else m, 10);
        assert Digits(if n < 0 then -n else n, 10)[0] in Digits(if n < 0 then -n else n, 10);
      }
      if m < 0 {
        assert Digits(-m, 10) == Itoa(m)[1..] && Digits(-n, 10) == Itoa(n)[1..];
      }
    }
  }
}
