/** Printing and reading back configuration files, and what the scanner delivers on any file at all. */
module ConfRoundTrip {
  import opened Text
  import opened ConfSpec

  // What the scanner delivers

  /** Free of the characters that end a line or a text. */
  predicate OneLine(s: string) {
    '\n' !in s && NUL !in s
  }

  /** Parse takes a line that starts with one of these for something other than a parameter. */
  predicate LeadIn(c: char) {
    c == '[' || c == ';' || c == '#' || c == '\\'
  }

  predicate GoodKey(name: string) {
    NormalName(name) && OneLine(name) && '=' !in name && !LeadIn(name[0])
  }

  predicate Deliverable(e: Event) {
    match e
    case Section(name) => name != [] && !IsSpace(Last(name)) && OneLine(name) && ']' !in name
    case Param(name, value) => GoodKey(name) && OneLine(value) && '\r' !in value
  }

  /** The raw text of a parameter name starts with a character that is neither space nor backslash. */
  predicate GoodStart(raw: string) {
    raw != [] ==> !IsSpace(raw[0]) && raw[0] != '\\'
  }

  lemma {:induction false} ScannedName(raw: string, s: string, stop: char)
    requires OneLine(raw) && stop !in raw && !IsSpace(stop) && stop != NUL
    ensures var r := ScanName(raw, s, stop);
            r.Named? ==> r.name != [] && !IsSpace(Last(r.name)) && OneLine(r.name) && stop !in r.name
    ensures var r := ScanName(raw, s, stop);
            r.Named? && GoodStart(raw) && (raw == [] ==> s != [] && GoodStart(s)) ==>
              NormalName(r.name) && r.name[0] == (raw + s)[0]
    decreases |s|
  {
    if s == [] || s[0] == NUL {
    } else if s[0] == stop {
      CollapseNormal(raw);
    } else if s[0] == '\n' {
      if Joined(raw).Some? {
        var joined := Joined(raw).value;
        assert forall c :: c in joined ==> c in raw;
        assert TrimRight(raw) <= raw;
        ScannedName(joined, s[1..], stop);
      }
    } else {
      ScannedName(raw + [s[0]], s[1..], stop);
    }
  }

  lemma {:induction false} ScannedValue(raw: string, joint: nat, s: string)
    requires joint <= |raw| && OneLine(raw) && '\r' !in raw
    ensures var v := ScanValue(raw, joint, s).value; OneLine(v) && '\r' !in v
    decreases |s|
  {
    assert forall c :: c in ValueOf(raw, joint) ==> c in raw;
    if s == [] || s[0] == NUL {
    } else if s[0] == '\r' {
      ScannedValue(raw, joint, s[1..]);
    } else if s[0] == '\n' {
      if Joined(raw).Some? {
        var joined := Joined(raw).value;
        assert forall c :: c in joined ==> c in raw;
        ScannedValue(joined, |joined|, s[1..]);
      }
    } else {
      ScannedValue(raw + [s[0]], joint, s[1..]);
    }
  }

  /** On every text, every parameter name delivered is in normal form, whatever lines were continued. */
  lemma {:induction false} ParsedDeliverable(s: string, done: seq<Event>, answer: Answer)
    requires forall e :: e in done ==> Deliverable(e)
    requires s != [] ==> !IsBlank(s[0])
    ensures forall e :: e in ParseFrom(s, done, answer).1 ==> Deliverable(e)
    decreases |s|
  {
    if s == [] || s[0] == NUL {
    } else if s[0] == '\n' || s[0] == '\\' {
      ParsedDeliverable(SkipBlank(s[1..]), done, answer);
    } else if s[0] == ';' || s[0] == '#' {
      ParsedDeliverable(SkipLine(s[1..]), done, answer);
    } else if s[0] == '[' {
      ScannedName([], SkipBlank(s[1..]), ']');
      match ScanName([], SkipBlank(s[1..]), ']')
      case Named(name, rest) =>
        var called := done + [Section(name)];
        if answer(called) {
          ParsedDeliverable(SkipBlank(Tail(SkipLine(rest))), called, answer);
        }
      case _ =>
    } else {
      ScannedName([], s, '=');
      match ScanName([], s, '=')
      case Nameless =>
      case Broken(rest) => ParsedDeliverable(SkipBlank(rest), done, answer);
      case Named(name, rest) =>
        ScannedValue([], 0, SkipBlank(rest));
        var v := ScanValue([], 0, SkipBlank(rest));
        var called := done + [Param(name, v.value)];
        if answer(called) {
          ParsedDeliverable(SkipBlank(v.rest), called, answer);
        }
    }
  }

  /** The same for a whole file. */
  lemma FileDeliverable(text: string, answer: Answer)
    ensures forall e :: e in Parse(text, answer).1 ==> Deliverable(e)
  {
    ParsedDeliverable(SkipBlank(text), [], answer);
  }

  /** Parse goes on exactly while its calls are accepted: it adds to the calls already made, each call
      but the last was accepted, and on success so was the last. */
  lemma {:induction false} StopsAtRefusal(s: string, done: seq<Event>, answer: Answer)
    ensures var (ok, calls) := ParseFrom(s, done, answer);
            && done <= calls
            && (forall k :: |done| < k < |calls| ==> answer(calls[..k]))
            && (ok && |done| < |calls| ==> answer(calls))
    decreases |s|, 0
  {
    if s == [] || s[0] == NUL {
    } else if s[0] == '\n' || s[0] == '\\' {
      StopsAtRefusal(SkipBlank(s[1..]), done, answer);
    } else if s[0] == ';' || s[0] == '#' {
      StopsAtRefusal(SkipLine(s[1..]), done, answer);
    } else if s[0] == '[' {
      match ScanName([], SkipBlank(s[1..]), ']')
      case Named(name, rest) => CallThen(SkipBlank(Tail(SkipLine(rest))), done, Section(name), answer);
      case _ =>
    } else {
      match ScanName([], s, '=')
      case Nameless =>
      case Broken(rest) => StopsAtRefusal(SkipBlank(rest), done, answer);
      case Named(name, rest) =>
        var v := ScanValue([], 0, SkipBlank(rest));
        CallThen(SkipBlank(v.rest), done, Param(name, v.value), answer);
    }
  }

  lemma {:induction false} CallThen(rest: string, done: seq<Event>, e: Event, answer: Answer)
    ensures answer(done + [e]) ==>
              var (ok, calls) := ParseFrom(rest, done + [e], answer);
              && done + [e] <= calls
              && (forall k :: |done| < k < |calls| ==> answer(calls[..k]))
              && (ok ==> answer(calls))
    decreases |rest|, 1
  {
    if answer(done + [e]) {
      StopsAtRefusal(rest, done + [e], answer);
      var calls := ParseFrom(rest, done + [e], answer).1;
      assert calls[..|done| + 1] == done + [e];
      if |calls| == |done| + 1 {
        assert calls == done + [e];
      }
    }
  }

  // The printed form

  function LineText(e: Event): string {
    match e
    case Section(name) => "\n[" + name + "]\n"
    case Param(name, value) => "\t" + name + " = " + value + "\n"
  }

  function Layout(es: seq<Event>): string {
    if es == [] then [] else LineText(es[0]) + Layout(es[1..])
  }

  predicate GoodValue(v: string) {
    && OneLine(v) && '\r' !in v
    && (v != [] ==> !IsSpace(v[0]) && !IsSpace(Last(v)) && Last(v) != '\\')
  }

  predicate Printable(e: Event) {
    match e
    case Section(name) => NormalName(name) && OneLine(name) && ']' !in name
    case Param(name, value) => GoodKey(name) && GoodValue(value)
  }

  /** What a list of calls amounts to when the callback may refuse: a prefix of it. */
  function Calls(es: seq<Event>, done: seq<Event>, answer: Answer): (bool, seq<Event>) {
    if es == [] then (true, done)
    else if answer(done + [es[0]]) then Calls(es[1..], done + [es[0]], answer)
    else (false, done + [es[0]])
  }

  // Reading back one line

  lemma {:induction false} ScanPlain(raw: string, n: string, rest: string, stop: char)
    requires OneLine(n) && stop !in n
    ensures ScanName(raw, n + rest, stop) == ScanName(raw + n, rest, stop)
    decreases |n|
  {
    if n == [] {
      assert n + rest == rest && raw + n == raw;
    } else {
      assert (n + rest)[1..] == n[1..] + rest;
      ScanPlain(raw + [n[0]], n[1..], rest, stop);
      assert raw + [n[0]] + n[1..] == raw + n;
    }
  }

  lemma {:induction false} ScanPlainValue(raw: string, v: string, rest: string)
    requires OneLine(v) && '\r' !in v
    ensures ScanValue(raw, 0, v + rest) == ScanValue(raw + v, 0, rest)
    decreases |v|
  {
    if v == [] {
      assert v + rest == rest && raw + v == raw;
    } else {
      assert (v + rest)[1..] == v[1..] + rest;
      ScanPlainValue(raw + [v[0]], v[1..], rest);
      assert raw + [v[0]] + v[1..] == raw + v;
    }
  }

  lemma {:induction false} SkipBlankPast(b: string, s: string)
    requires forall c :: c in b ==> IsBlank(c)
    ensures SkipBlank(b + s) == SkipBlank(s)
  {
    if b == [] {
      assert b + s == s;
    } else {
      assert (b + s)[1..] == b[1..] + s;
      SkipBlankPast(b[1..], s);
    }
  }

  lemma ScanHeader(name: string, rest: string)
    requires OneLine(name) && ']' !in name
    ensures ScanName([], SkipBlank(name + "]" + rest), ']') ==
            var n := NameOf(SkipBlank(name));
            if n == [] then Nameless else Named(n, rest)
  {
    var n := SkipBlank(name);
    var after := "]" + rest;
    assert SkipBlank(name + "]" + rest) == n + after by {
      assert name + "]" + rest == Blanks(name) + (n + after);
      SkipBlankPast(Blanks(name), n + after);
    }
    assert ScanName([], n + after, ']') == ScanName(n, after, ']') by {
      ScanPlain([], n, after, ']');
      assert [] + n == n;
    }
    assert after[1..] == rest;
  }

  lemma ScanKey(name: string, rest: string)
    requires GoodKey(name)
    ensures ScanName([], name + " = " + rest, '=') == Named(name, " " + rest)
  {
    assert name + " = " + rest == name + " " + ("= " + rest) by {
      assert " = " == " " + "= ";
      Regroup(name, " ", "= ", rest);
    }
    ScanPlain([], name + " ", "= " + rest, '=');
    assert [] + (name + " ") == name + " ";
    KeyEnds(name, rest);
  }

  lemma KeyEnds(name: string, rest: string)
    requires GoodKey(name)
    ensures ScanName(name + " ", "= " + rest, '=') == Named(name, " " + rest)
  {
    assert ("= " + rest)[1..] == " " + rest;
    CollapseIdentity(name);
    CollapseSnoc(name, ' ');
  }

  /** The value on the line `value`, and the text after it. */
  function LineValue(value: string, rest: string): Valued {
    var w := SkipBlank(value);
    if Joined(w).None? then Valued(TrimRight(w), rest)
    else ScanValue(Joined(w).value, |Joined(w).value|, rest)
  }

  lemma ScanLine(value: string, rest: string)
    requires OneLine(value) && '\r' !in value
    ensures ScanValue([], 0, SkipBlank(" " + (value + "\n" + rest))) == LineValue(value, rest)
  {
    var w := SkipBlank(value);
    var after := "\n" + rest;
    LineSkips(value, rest);
    ScanPlainValue([], w, after);
    assert [] + w == w;
    assert after[1..] == rest;
  }

  lemma LineSkips(value: string, rest: string)
    ensures SkipBlank(" " + (value + "\n" + rest)) == SkipBlank(value) + ("\n" + rest)
  {
    var w := SkipBlank(value);
    var b := " " + Blanks(value);
    var after := "\n" + rest;
    assert value == Blanks(value) + w;
    Associate(value, "\n", rest);
    Associate(" ", value, after);
    Regroup(" ", Blanks(value), w, after);
    SkipBlankPast(b, w + after);
  }

  lemma ParseHeader(header: string, name: string, rest: string, done: seq<Event>, answer: Answer)
    requires OneLine(name) && ']' !in name
    requires header != [] && header[0] == '[' && header[1..] == name + "]" + rest
    ensures ParseFrom(header, done, answer) ==
            var n := NameOf(SkipBlank(name));
            var called := done + [Section(n)];
            if n == [] then (false, done)
            else if answer(called) then ParseFrom(SkipBlank(Tail(SkipLine(rest))), called, answer)
            else (false, called)
  {
    ScanHeader(name, rest);
  }

  lemma ParseBlankLine(s: string, done: seq<Event>, answer: Answer)
    requires s != [] && !IsBlank(s[0])
    ensures ParseFrom(SkipBlank("\n" + s), done, answer) == ParseFrom(s, done, answer)
  {
  }

  /** A section line that is scanned without continuation. */
  lemma SectionLine(name: string, rest: string, done: seq<Event>, answer: Answer)
    requires OneLine(name) && ']' !in name
    ensures ParseFrom(SkipBlank(LineText(Section(name)) + rest), done, answer) ==
            var n := NameOf(SkipBlank(name));
            var called := done + [Section(n)];
            if n == [] then (false, done)
            else if answer(called) then ParseFrom(SkipBlank(rest), called, answer)
            else (false, called)
  {
    var after := "\n" + rest;
    var header := "[" + (name + "]" + after);
    SectionText(name, rest);
    ParseBlankLine(header, done, answer);
    assert header[1..] == name + "]" + after;
    ParseHeader(header, name, after, done, answer);
    assert SkipLine(after) == after && after[1..] == rest;
  }

  lemma SectionText(name: string, rest: string)
    ensures LineText(Section(name)) + rest == "\n" + ("[" + (name + "]" + ("\n" + rest)))
  {
  }

  /** A parameter line with a good key: its value is read without its outer white space, unless it
      ends in a backslash; then the next line belongs to it. */
  lemma ParamLine(name: string, value: string, rest: string, done: seq<Event>, answer: Answer)
    requires GoodKey(name) && OneLine(value) && '\r' !in value
    ensures ParseFrom(SkipBlank(LineText(Param(name, value)) + rest), done, answer) ==
            var v := LineValue(value, rest);
            var called := done + [Param(name, v.value)];
            if answer(called) then ParseFrom(SkipBlank(v.rest), called, answer)
            else (false, called)
  {
    var after := value + "\n" + rest;
    var s := name + " = " + after;
    assert LineText(Param(name, value)) + rest == "\t" + s;
    SkipBlankPast("\t", s);
    assert s[0] == name[0] && SkipBlank(s) == s;
    ScanKey(name, after);
    ScanLine(value, rest);
  }

  lemma PrintableLine(e: Event, rest: string, done: seq<Event>, answer: Answer)
    requires Printable(e)
    ensures ParseFrom(SkipBlank(LineText(e) + rest), done, answer) ==
            if answer(done + [e]) then ParseFrom(SkipBlank(rest), done + [e], answer)
            else (false, done + [e])
  {
    match e
    case Section(name) =>
      SectionLine(name, rest, done, answer);
      CollapseIdentity(name);
    case Param(name, value) =>
      ParamLine(name, value, rest, done, answer);
  }

  lemma {:induction false} LayoutReads(es: seq<Event>, done: seq<Event>, answer: Answer)
    requires forall e :: e in es ==> Printable(e)
    ensures ParseFrom(SkipBlank(Layout(es)), done, answer) == Calls(es, done, answer)
  {
    if es != [] {
      PrintableLine(es[0], Layout(es[1..]), done, answer);
      if answer(done + [es[0]]) {
        LayoutReads(es[1..], done + [es[0]], answer);
      }
    }
  }

  /** The parser undoes the printer: any list of printable sections and parameters is read back as
      exactly those callbacks, in order, up to the first one refused. */
  lemma ParserUndoesPrinter(es: seq<Event>, answer: Answer)
    requires forall e :: e in es ==> Printable(e)
    ensures Parse(Layout(es), answer) == Calls(es, [], answer)
  {
    LayoutReads(es, [], answer);
  }

  /** If every prefix of the calls is accepted, all of them are made. */
  lemma {:induction false} CallsComplete(es: seq<Event>, done: seq<Event>, answer: Answer)
    requires forall k :: |done| < k <= |done + es| ==> answer((done + es)[..k])
    ensures Calls(es, done, answer) == (true, done + es)
  {
    if es == [] {
      assert done + es == done;
    } else {
      var d := done + [es[0]];
      assert d + es[1..] == done + es;
      assert (done + es)[..|done| + 1] == d;
      CallsComplete(es[1..], d, answer);
    }
  }

  lemma SectionPrintable(name: string)
    requires name != [] && OneLine(name) && ']' !in name
    ensures NameOf(SkipBlank(name)) == name <==> NormalName(name)
  {
    if NormalName(name) {
      CollapseIdentity(name);
    } else {
      CollapseNormal(SkipBlank(name));
    }
  }

  lemma ParamPrintable(value: string)
    requires OneLine(value) && '\r' !in value
    ensures LineValue(value, []).value == value <==> GoodValue(value)
  {
  }

  /** Exactly the printable events survive being printed and read back. */
  lemma PrintableExactly(e: Event, answer: Answer)
    requires forall h :: answer(h)
    ensures Parse(LineText(e), answer) == (true, [e]) <==> Printable(e)
  {
    if Deliverable(e) {
      assert LineText(e) + [] == LineText(e);
      match e
      case Section(name) =>
        SectionLine(name, [], [], answer);
        SectionPrintable(name);
        assert [] + [Section(NameOf(SkipBlank(name)))] == [e] <==> NormalName(name);
      case Param(name, value) =>
        ParamLine(name, value, [], [], answer);
        ParamPrintable(value);
        assert [] + [Param(name, LineValue(value, []).value)] == [e] <==> GoodValue(value);
    } else {
      FileDeliverable(LineText(e), answer);
      assert e in [e];
    }
  }
}
