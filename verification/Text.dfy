/** The JavaScript string operations the source uses: splitting, trimming, searching and number texts. */
module Text {

  // ----- Splitting and joining -----

  /** `s.split(c)` for a one-character separator. */
  function Split(s: string, c: char): (parts: seq<string>)
    ensures |parts| >= 1
  {
    if s == "" then [""]
    else
      var rest := Split(s[1..], c);
      if s[0] == c then [""] + rest else [[s[0]] + rest[0]] + rest[1..]
  }

  /** `parts.join(c)`. */
  function Join(parts: seq<string>, c: char): string {
    if parts == [] then ""
    else if |parts| == 1 then parts[0]
    else parts[0] + [c] + Join(parts[1..], c)
  }

  lemma {:induction false} SplitPrefix(word: string, s: string, c: char)
    requires c !in word
    ensures Split(word + [c] + s, c) == [word] + Split(s, c)
    decreases |word|
  {
    var all := word + [c] + s;
    if word == "" {
      assert all[1..] == s;
    } else {
      SplitPrefix(word[1..], s, c);
      assert all[1..] == word[1..] + [c] + s;
      assert [word[0]] + word[1..] == word && all[0] == word[0];
    }
  }

  lemma {:induction false} SplitWord(word: string, c: char)
    requires c !in word
    ensures Split(word, c) == [word]
    decreases |word|
  {
    if word != "" {
      SplitWord(word[1..], c);
      assert [word[0]] + word[1..] == word;
    }
  }

  lemma {:induction false} SplitJoin(parts: seq<string>, c: char)
    requires parts != [] && forall p :: p in parts ==> c !in p
    ensures Split(Join(parts, c), c) == parts
    decreases |parts|
  {
    if |parts| == 1 {
      SplitWord(parts[0], c);
    } else {
      SplitJoin(parts[1..], c);
      SplitPrefix(parts[0], Join(parts[1..], c), c);
    }
  }

  lemma {:induction false} JoinSplit(s: string, c: char)
    ensures Join(Split(s, c), c) == s
    ensures forall p :: p in Split(s, c) ==> c !in p
    decreases |s|
  {
    if s != "" {
      JoinSplit(s[1..], c);
      var rest := Split(s[1..], c);
      if s[0] == c {
        assert Split(s, c)[1..] == rest;
      } else {
        assert Split(s, c)[1..] == rest[1..];
        assert rest[0] in rest;
      }
    }
  }

  // ----- Trimming, case and searching -----

  predicate IsSpace(c: char) {
    || c in " \t\n\r" || c == '\U{0B}' || c == '\U{0C}' || c == '\U{A0}' || c == '\U{1680}'
    || '\U{2000}' <= c <= '\U{200A}' || c == '\U{2028}' || c == '\U{2029}' || c == '\U{202F}'
    || c == '\U{205F}' || c == '\U{3000}' || c == '\U{FEFF}'
  }

  function TrimStart(s: string): string {
    if s != "" && IsSpace(s[0]) then TrimStart(s[1..]) else s
  }

  function TrimEnd(s: string): string {
    if s != "" && IsSpace(s[|s| - 1]) then TrimEnd(s[..|s| - 1]) else s
  }

  function Trim(s: string): string {
    TrimEnd(TrimStart(s))
  }

  function LowerChar(c: char): char {
    if 'A' <= c <= 'Z' then (c as int + 32) as char else c
  }

  /** `toLowerCase`, of ASCII letters. */
  function Lower(s: string): (r: string)
    ensures |r| == |s| && forall i :: 0 <= i < |r| ==> r[i] == LowerChar(s[i])
  {
    seq(|s|, i requires 0 <= i < |s| => LowerChar(s[i]))
  }

  /** `indexOf(c)`, or -1. */
  function IndexOf(s: string, c: char): (n: int)
    ensures -1 <= n < |s|
    ensures n >= 0 ==> s[n] == c && c !in s[..n]
    ensures n == -1 ==> c !in s
  {
    if s == "" then -1
    else if s[0] == c then 0
    else
      var n := IndexOf(s[1..], c);
      if n < 0 then -1 else
        assert s[..n + 1] == [s[0]] + s[1..][..n];
        n + 1
  }

  /** `lastIndexOf(c)`, or -1. */
  function LastIndexOf(s: string, c: char): int {
    if s == "" then -1
    else if s[|s| - 1] == c then |s| - 1
    else LastIndexOf(s[..|s| - 1], c)
  }

  lemma {:induction false} LastIndexFound(head: string, tail: string, c: char)
    requires c !in tail
    ensures LastIndexOf(head + [c] + tail, c) == |head|
    decreases |tail|
  {
    var s := head + [c] + tail;
    if tail != "" {
      LastIndexFound(head, tail[..|tail| - 1], c);
      assert s[..|s| - 1] == head + [c] + tail[..|tail| - 1];
    }
  }

  lemma {:induction false} LastIndexMeaning(s: string, c: char)
    ensures var n := LastIndexOf(s, c); -1 <= n < |s| && (n >= 0 ==> s[n] == c) && c !in s[n + 1..]
    decreases |s|
  {
    if s != "" && s[|s| - 1] != c {
      LastIndexMeaning(s[..|s| - 1], c);
      var n := LastIndexOf(s, c);
      assert s[n + 1..] == s[..|s| - 1][n + 1..] + [s[|s| - 1]];
    }
  }

  // ----- Numbers as text -----

  predicate IsDigit(c: char) {
    '0' <= c <= '9'
  }

  predicate AllDigits(s: string) {
    forall i :: 0 <= i < |s| ==> IsDigit(s[i])
  }

  /** A lower-case hexadecimal digit. */
  predicate IsHex(c: char) {
    '0' <= c <= '9' || 'a' <= c <= 'f'
  }

  function HexValue(c: char): (n: nat)
    requires IsHex(c)
    ensures n < 16 && (IsDigit(c) ==> n < 10)
  {
    if IsDigit(c) then c as int - '0' as int else c as int - 'a' as int + 10
  }

  function HexChar(n: nat): (c: char)
    requires n < 16
    ensures IsHex(c) && HexValue(c) == n && (n < 10 ==> IsDigit(c))
  {
    if n < 10 then (n + '0' as int) as char else (n - 10 + 'a' as int) as char
  }

  /** The bases numbers are written in here. */
  predicate IsBase(base: nat) {
    base == 10 || base == 16
  }

  /** `parseInt(s, base)` of a text of digits, and `Number(s)` for base ten. */
  function Value(s: string, base: nat): nat
    requires IsBase(base) && forall c :: c in s ==> IsHex(c)
  {
    if s == "" then 0 else Value(s[..|s| - 1], base) * base + HexValue(s[|s| - 1])
  }

  /** `n.toString(base)`. */
  function Print(n: nat, base: nat): (s: string)
    requires IsBase(base)
    ensures s != "" && forall c :: c in s ==> IsHex(c) && (base == 10 ==> IsDigit(c))
  {
    if n < base then [HexChar(n)] else Print(n / base, base) + [HexChar(n % base)]
  }

  lemma {:induction false} ValueOfPrint(n: nat, base: nat)
    requires IsBase(base)
    ensures Value(Print(n, base), base) == n
    decreases n
  {
    if n >= base {
      ValueOfPrint(n / base, base);
      var rest := Print(n / base, base);
      assert (rest + [HexChar(n % base)])[..|rest|] == rest;
    } else {
      assert [HexChar(n)][..0] == "";
    }
  }

  function Power(base: nat, n: nat): (r: nat)
    requires IsBase(base)
    ensures r >= 1
  {
    if n == 0 then 1 else base * Power(base, n - 1)
  }

  lemma {:induction false} PrintLength(n: nat, base: nat, digits: nat)
    requires IsBase(base) && digits >= 1 && n < Power(base, digits)
    ensures |Print(n, base)| <= digits
    decreases digits
  {
    if n >= base {
      PrintLength(n / base, base, digits - 1);
    }
  }

  lemma {:induction false} ValueBound(s: string, base: nat)
    requires IsBase(base) && forall c :: c in s ==> IsHex(c) && HexValue(c) < base
    ensures Value(s, base) < Power(base, |s|)
    decreases |s|
  {
    if s != "" {
      ValueBound(s[..|s| - 1], base);
      assert s[|s| - 1] in s;
    }
  }
}
