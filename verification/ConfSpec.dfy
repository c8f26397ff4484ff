/** What the configuration-file scanner of params.c means, as functions on the unread text.
    In each of these `s[0]` is the character the scanner has just read and `s == []` is end of file.
    Names and values are specified on the raw text: lines are joined first and white space is
    collapsed once, at the end. The scanner itself collapses in place while it reads. */
module ConfSpec {
  import opened Text

  /** One callback: a section header, or a parameter line. */
  datatype Event = Section(name: string) | Param(name: string, value: string)

  /** The callback's answer to the last of the calls made so far. */
  type Answer = seq<Event> -> bool

  function Tail(s: string): string {
    if s == [] then [] else s[1..]
  }

  // EatWhitespace and EatComment

  function Blanks(s: string): (b: string)
    ensures b <= s
    ensures forall c :: c in b ==> IsBlank(c)
  {
    if s != [] && IsBlank(s[0]) then [s[0]] + Blanks(s[1..]) else []
  }

  function SkipBlank(s: string): (r: string)
    ensures s == Blanks(s) + r
    ensures r != [] ==> !IsBlank(r[0])
    ensures |r| <= |s|
  {
    if s != [] && IsBlank(s[0]) then SkipBlank(s[1..]) else s
  }

  function SkipLine(s: string): (r: string)
    ensures |r| <= |s|
    ensures r != [] ==> r[0] == '\n' || r[0] == NUL
  {
    if s == [] || s[0] == '\n' || s[0] == NUL then s else SkipLine(s[1..])
  }

  // Section names

  datatype Scanned =
    | Named(name: string, rest: string)  // a nonempty name, and the text after its terminator
    | Nameless                           // the terminator came before any name
    | Broken(rest: string)               // the line or the file ended first

  /** The text scanned as a name: trimmed at the end and collapsed. */
  function NameOf(raw: string): string {
    TrimRight(Collapse(raw))
  }

  /** Reads a name up to `stop`, joining continued lines on the raw text. */
  function ScanName(raw: string, s: string, stop: char): (r: Scanned)
    ensures r.Named? ==> |r.rest| < |s|
    ensures r.Broken? ==> |r.rest| <= |s|
    ensures r.Broken? && s != [] ==> |r.rest| < |s|
    ensures r.Named? ==> r.name != []
    decreases |s|
  {
    if s == [] then Broken([])
    else if s[0] == stop then
      if NameOf(raw) == [] then Nameless else Named(NameOf(raw), s[1..])
    else if s[0] == '\n' then
      match Joined(raw)
      case None => Broken(s[1..])
      case Some(joined) => ScanName(joined, s[1..], stop)
    else if s[0] == NUL then Broken(s[1..])
    else ScanName(raw + [s[0]], s[1..], stop)
  }

  // Values

  /** The value held in `raw`: trimmed at the end, but never back past the last line joint. */
  function ValueOf(raw: string, joint: nat): string
    requires joint <= |raw|
  {
    var t := TrimRight(raw);
    if |t| < joint then raw[..joint] else t
  }

  datatype Valued = Valued(value: string, rest: string)

  function ScanValue(raw: string, joint: nat, s: string): (r: Valued)
    requires joint <= |raw|
    ensures |r.rest| <= |s|
    decreases |s|
  {
    if s == [] then Valued(ValueOf(raw, joint), [])
    else if s[0] == NUL then Valued(ValueOf(raw, joint), s[1..])
    else if s[0] == '\r' then ScanValue(raw, joint, s[1..])
    else if s[0] == '\n' then
      match Joined(raw)
      case None => Valued(ValueOf(raw, joint), s[1..])
      case Some(joined) => ScanValue(joined, |joined|, s[1..])
    else ScanValue(raw + [s[0]], joint, s[1..])
  }

  // Whole files

  /** The callbacks made and the result, given those made before; `s[0]` starts a line or is '\n',
      end of file or NUL. */
  function ParseFrom(s: string, done: seq<Event>, answer: Answer): (bool, seq<Event>)
    decreases |s|
  {
    if s == [] || s[0] == NUL then (true, done)
    else if s[0] == '\n' || s[0] == '\\' then ParseFrom(SkipBlank(s[1..]), done, answer)
    else if s[0] == ';' || s[0] == '#' then ParseFrom(SkipLine(s[1..]), done, answer)
    else if s[0] == '[' then
      match ScanName([], SkipBlank(s[1..]), ']')
      case Named(name, rest) =>
        var called := done + [Section(name)];
        if answer(called) then ParseFrom(SkipBlank(Tail(SkipLine(rest))), called, answer)
        else (false, called)
      case _ => (false, done)
    else
      match ScanName([], s, '=')
      case Nameless => (false, done)
      case Broken(rest) => ParseFrom(SkipBlank(rest), done, answer)
      case Named(name, rest) =>
        var v := ScanValue([], 0, SkipBlank(rest));
        var called := done + [Param(name, v.value)];
        if answer(called) then ParseFrom(SkipBlank(v.rest), called, answer)
        else (false, called)
  }

  /** Parse on a whole file: its result and every callback it makes, in order. */
  function Parse(text: string, answer: Answer): (bool, seq<Event>) {
    ParseFrom(SkipBlank(text), [], answer)
  }

  // Reading a run of blanks at once

  lemma {:induction false} ScanNameBlanks(raw: string, s: string, stop: char)
    requires !IsBlank(stop)
    ensures ScanName(raw, s, stop) == ScanName(raw + Blanks(s), SkipBlank(s), stop)
    decreases |s|
  {
    if s != [] && IsBlank(s[0]) {
      ScanNameBlanks(raw + [s[0]], s[1..], stop);
      assert raw + [s[0]] + Blanks(s[1..]) == raw + Blanks(s);
    } else {
      assert raw + Blanks(s) == raw;
    }
  }
}
