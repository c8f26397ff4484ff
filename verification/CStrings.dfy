/** The string helpers of samba/lib/util that the configuration engine relies on, over ASCII text:
    comparisons, case, numbers, booleans, sizes and lists. */
module CStrings {
  import opened Text

  // Case and comparison

  function ToUpper(c: char): char {
    if 'a' <= c <= 'z' then (c as int - 32) as char else c
  }

  function ToLower(c: char): char {
    if 'A' <= c <= 'Z' then (c as int + 32) as char else c
  }

  function StrUpper(s: string): (r: string)
    ensures |r| == |s|
    ensures forall k :: 0 <= k < |s| ==> r[k] == ToUpper(s[k])
  {
    seq(|s|, k requires 0 <= k < |s| => ToUpper(s[k]))
  }

  function StrLower(s: string): (r: string)
    ensures |r| == |s|
    ensures forall k :: 0 <= k < |s| ==> r[k] == ToLower(s[k])
  {
    seq(|s|, k requires 0 <= k < |s| => ToLower(s[k]))
  }

  /** strequal: equal but for case. */
  predicate StrEqual(a: string, b: string) {
    StrUpper(a) == StrUpper(b)
  }

  /** What strwicmp compares: the text without white space, in upper case. */
  function WKey(s: string): string {
    if s == [] then [] else if IsSpace(s[0]) then WKey(s[1..]) else [ToUpper(s[0])] + WKey(s[1..])
  }

  predicate SameName(a: string, b: string) {
    WKey(a) == WKey(b)
  }

  lemma {:induction false} LowerSameName(s: string)
    ensures WKey(StrLower(s)) == WKey(s)
  {
    if s != [] {
      assert StrLower(s)[1..] == StrLower(s[1..]);
      LowerSameName(s[1..]);
    }
  }

  function TrimLeft(s: string): (r: string)
    ensures |r| <= |s|
    ensures r != [] ==> !IsSpace(r[0])
  {
    if s != [] && IsSpace(s[0]) then TrimLeft(s[1..]) else s
  }

  // Booleans

  function SetBoolean(s: string): Option<bool> {
    var k := WKey(s);
    if k == "YES" || k == "TRUE" || k == "ON" || k == "1" then Some(true)
    else if k == "NO" || k == "FALSE" || k == "OFF" || k == "0" then Some(false)
    else None
  }

  function BoolStr(b: bool): string {
    if b then "Yes" else "No"
  }

  lemma BoolRoundTrip(b: bool)
    ensures SetBoolean(BoolStr(b)) == Some(b)
  {
    assert "Yes"[1..] == "es" && "es"[1..] == "s" && "s"[1..] == [];
    assert "No"[1..] == "o" && "o"[1..] == [];
    assert WKey("s") == "S" && WKey("es") == "ES" && WKey("Yes") == "YES";
    assert WKey("o") == "O" && WKey("No") == "NO";
  }

  // Decimal numbers

  predicate IsDigit(c: char) {
    '0' <= c <= '9'
  }

  function Digit(d: nat): char
    requires d < 10
  {
    (d + 48) as char
  }

  function DigitPrefix(s: string): (r: string)
    ensures r <= s
    ensures forall c :: c in r ==> IsDigit(c)
  {
    if s != [] && IsDigit(s[0]) then [s[0]] + DigitPrefix(s[1..]) else []
  }

  function NatOf(ds: string): nat
    requires forall c :: c in ds ==> IsDigit(c)
  {
    if ds == [] then 0
    else
      assert Last(ds) in ds && IsDigit(Last(ds));
      assert forall c :: c in Front(ds) ==> c in ds;
      10 * NatOf(Front(ds)) + (Last(ds) as int - 48)
  }

  /** atoi on text whose number fits an int. */
  function Atoi(s: string): int {
    var t := TrimLeft(s);
    if t != [] && t[0] == '-' then 0 - NatOf(DigitPrefix(t[1..]))
    else if t != [] && t[0] == '+' then NatOf(DigitPrefix(t[1..]))
    else NatOf(DigitPrefix(t))
  }

  function Digits(n: nat): (r: string)
    ensures r != []
    ensures forall c :: c in r ==> IsDigit(c)
  {
    if n < 10 then [Digit(n)] else Digits(n / 10) + [Digit(n % 10)]
  }

  /** printf's "%d". */
  function PrintInt(i: int): string {
    if i < 0 then "-" + Digits(-i) else Digits(i)
  }

  lemma {:induction false} NatOfDigits(n: nat)
    ensures NatOf(Digits(n)) == n
  {
    if n >= 10 {
      NatOfDigits(n / 10);
      assert Front(Digits(n)) == Digits(n / 10);
    } else {
      assert Front(Digits(n)) == [];
    }
  }

  lemma {:induction false} DigitPrefixAll(s: string)
    requires forall c :: c in s ==> IsDigit(c)
    ensures DigitPrefix(s) == s
  {
    if s != [] {
      assert forall c :: c in s[1..] ==> c in s;
      DigitPrefixAll(s[1..]);
    }
  }

  lemma IntRoundTrip(i: int)
    ensures Atoi(PrintInt(i)) == i
  {
    var n: nat := if i < 0 then -i else i;
    NatOfDigits(n);
    DigitPrefixAll(Digits(n));
    assert IsDigit(Digits(n)[0]);
    assert ("-" + Digits(n))[1..] == Digits(n);
  }

  /** conv_str_size: digits, then nothing or one of K, M, G, T, P; modulo 2^64. */
  function ConvSize(s: string): Option<nat> {
    var t := TrimLeft(s);
    var negative := t != [] && t[0] == '-';
    var u := if t != [] && (t[0] == '-' || t[0] == '+') then t[1..] else t;
    var ds := DigitPrefix(u);
    var unit := WKey(u[|ds|..]);
    var whole := 0x1_0000_0000_0000_0000;
    var n := NatOf(ds);
    var capped := if n < whole then n else whole - 1;
    var signed := if negative then (whole - capped) % whole else capped;
    if ds == [] then None
    else if u[|ds|..] == [] then Some(signed)
    else if unit == "K" then Some((signed * 0x400) % whole)
    else if unit == "M" then Some((signed * 0x10_0000) % whole)
    else if unit == "G" then Some((signed * 0x4000_0000) % whole)
    else if unit == "T" then Some((signed * 0x100_0000_0000) % whole)
    else if unit == "P" then Some((signed * 0x4_0000_0000_0000) % whole)
    else None
  }

  // Lists

  predicate IsListSep(c: char) {
    c == ' ' || c == '\t' || c == ',' || c == '\n' || c == '\r'
  }

  function Word(s: string): (r: string)
    ensures r <= s
    ensures forall c :: c in r ==> !IsListSep(c)
  {
    if s == [] || IsListSep(s[0]) then [] else [s[0]] + Word(s[1..])
  }

  /** str_list_make with the default separators. */
  function StrListMake(s: string): (r: seq<string>)
    ensures forall w :: w in r ==> CleanWord(w)
    decreases |s|
  {
    if s == [] then []
    else if Word(s) == [] then StrListMake(s[1..])
    else [Word(s)] + StrListMake(s[|Word(s)|..])
  }

  /** A word that a list can hold: nonempty, no separator in it. */
  predicate CleanWord(w: string) {
    w != [] && forall c :: c in w ==> !IsListSep(c)
  }

  /** How print_parameter writes a list. */
  function PrintList(l: seq<string>): string {
    if l == [] then [] else if |l| == 1 then l[0] else l[0] + ", " + PrintList(l[1..])
  }

  lemma {:induction false} WordThen(w: string, rest: string)
    requires forall c :: c in w ==> !IsListSep(c)
    requires rest != [] ==> IsListSep(rest[0])
    ensures Word(w + rest) == w
  {
    if w == [] {
      assert w + rest == rest;
    } else {
      assert (w + rest)[1..] == w[1..] + rest;
      WordThen(w[1..], rest);
    }
  }

  lemma {:induction false} ListRoundTrip(l: seq<string>)
    requires forall w :: w in l ==> CleanWord(w)
    ensures StrListMake(PrintList(l)) == l
  {
    if l == [] {
      return;
    }
    assert l[0] in l && CleanWord(l[0]);
    if |l| == 1 {
      WordThen(l[0], []);
      assert l[0] + [] == l[0];
    } else {
      var rest := PrintList(l[1..]);
      assert forall w :: w in l[1..] ==> w in l;
      WordThen(l[0], ", " + rest);
      assert PrintList(l) == l[0] + (", " + rest);
      assert (", " + rest)[1..] == " " + rest && (" " + rest)[1..] == rest;
      assert StrListMake(", " + rest) == StrListMake(" " + rest) == StrListMake(rest);
      ListRoundTrip(l[1..]);
    }
  }
}
