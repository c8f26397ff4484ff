/**
 The white space that the scanner strips, and reprinting: exactly which texts are delivered stripped,
 as the header of params.c promises of all, and exactly which files a reprint keeps.
 */
module Stripping {
  import opened Text
  import opened ConfSpec
  import opened ConfRoundTrip

  // Values

  /** The characters of a value with its lines joined, and where the last joint is. */
  function RawValue(raw: string, joint: nat, s: string): (r: (string, nat))
    requires joint <= |raw|
    ensures r.1 <= |r.0|
    decreases |s|
  {
    if s == [] || s[0] == NUL then (raw, joint)
    else if s[0] == '\r' then RawValue(raw, joint, s[1..])
    else if s[0] == '\n' then
      match Joined(raw)
      case None => (raw, joint)
      case Some(joined) => RawValue(joined, |joined|, s[1..])
    else RawValue(raw + [s[0]], joint, s[1..])
  }

  lemma {:induction false} ValueFromRaw(raw: string, joint: nat, s: string)
    requires joint <= |raw|
    ensures ScanValue(raw, joint, s).value == var (r, j) := RawValue(raw, joint, s); ValueOf(r, j)
    decreases |s|
  {
    if s == [] || s[0] == NUL {
    } else if s[0] == '\r' {
      ValueFromRaw(raw, joint, s[1..]);
    } else if s[0] == '\n' {
      if Joined(raw).Some? {
        ValueFromRaw(Joined(raw).value, |Joined(raw).value|, s[1..]);
      }
    } else {
      ValueFromRaw(raw + [s[0]], joint, s[1..]);
    }
  }

  predicate Stripped(v: string) {
    v != [] ==> !IsSpace(v[0]) && !IsSpace(Last(v))
  }

  /**
   A value is delivered without outer white space exactly when, with its lines joined, it is blank and
   has no joint behind its first character, or starts with a non-space and still reaches its last joint
   without the white space at its end.
   */
  lemma StrippedExactly(s: string)
    ensures var v := ScanValue([], 0, s).value;
            var (raw, joint) := RawValue([], 0, s);
            Stripped(v) <==>
            (joint == 0 && TrimRight(raw) == []) ||
            (raw != [] && !IsSpace(raw[0]) && |TrimRight(raw)| >= joint)
  {
    ValueFromRaw([], 0, s);
  }

  // Section names

  /** The characters of a name with its lines joined, up to `stop`. */
  function RawName(raw: string, s: string, stop: char): string
    decreases |s|
  {
    if s == [] || s[0] == stop || s[0] == NUL then raw
    else if s[0] == '\n' then
      match Joined(raw)
      case None => raw
      case Some(joined) => RawName(joined, s[1..], stop)
    else RawName(raw + [s[0]], s[1..], stop)
  }

  lemma {:induction false} NameFromRaw(raw: string, s: string, stop: char)
    ensures var r := ScanName(raw, s, stop); r.Named? ==> r.name == NameOf(RawName(raw, s, stop))
    decreases |s|
  {
    if s == [] || s[0] == NUL || s[0] == stop {
    } else if s[0] == '\n' {
      if Joined(raw).Some? {
        NameFromRaw(Joined(raw).value, s[1..], stop);
      }
    } else {
      NameFromRaw(raw + [s[0]], s[1..], stop);
    }
  }

  /**
   Whether the text, read as a name, starts with white space: every newline takes back one of the
   backslashes before it, and then a blank comes first.  `k` backslashes are still open.
   */
  predicate OpensBlank(k: nat, s: string)
    decreases |s|
  {
    s != [] &&
    if s[0] == '\n' then k > 0 && OpensBlank(k - 1, s[1..])
    else if s[0] == '\\' then OpensBlank(k + 1, s[1..])
    else IsSpace(s[0]) && (k == 0 || OpensBlank(k, s[1..]))
  }

  /** Nothing but backslashes and white space, a backslash first. */
  predicate Pending(raw: string) {
    (raw != [] ==> raw[0] == '\\') && forall c :: c in raw ==> c == '\\' || IsSpace(c)
  }

  function Slashes(raw: string): nat {
    if raw == [] then 0 else Slashes(Front(raw)) + if Last(raw) == '\\' then 1 else 0
  }

  lemma {:induction false} SlashesTrim(raw: string)
    ensures Slashes(TrimRight(raw)) == Slashes(raw)
  {
    if raw != [] && IsSpace(Last(raw)) {
      SlashesTrim(Front(raw));
    }
  }

  lemma PendingJoined(raw: string)
    requires Pending(raw) && raw != []
    ensures Joined(raw).Some? && Pending(Joined(raw).value) && Slashes(Joined(raw).value) == Slashes(raw) - 1
  {
    SlashesTrim(raw);
    var t := TrimRight(raw);
    assert t != [] && Last(t) in raw;
    assert forall c :: c in Front(t) ==> c in raw;
  }

  /** What starts `raw` can no longer be taken back. */
  ghost predicate Settled(raw: string) {
    raw != [] && (IsSpace(raw[0]) || exists k :: 0 <= k < |raw| && raw[k] != '\\' && !IsSpace(raw[k]))
  }

  lemma SettledJoined(raw: string)
    requires Settled(raw) && Joined(raw).Some?
    ensures var j := Joined(raw).value; Settled(j) && j[0] == raw[0]
  {
    var t, j := TrimRight(raw), Joined(raw).value;
    assert !IsSpace(Last(t)) && |t| == |j| + 1;
    if !IsSpace(raw[0]) {
      var k :| 0 <= k < |raw| && raw[k] != '\\' && !IsSpace(raw[k]);
      assert k < |t| && t[k] == raw[k] && k != |t| - 1;
      assert j[k] == raw[k];
    }
  }

  lemma {:induction false} SettledStart(raw: string, s: string, stop: char)
    requires Settled(raw) && ScanName(raw, s, stop).Named?
    ensures var r := RawName(raw, s, stop); r != [] && r[0] == raw[0]
    decreases |s|
  {
    if s[0] == stop {
    } else if s[0] == '\n' {
      SettledJoined(raw);
      SettledStart(Joined(raw).value, s[1..], stop);
    } else {
      assert (raw + [s[0]])[..|raw|] == raw;
      SettledStart(raw + [s[0]], s[1..], stop);
    }
  }

  lemma {:induction false} PendingStart(raw: string, s: string, stop: char)
    requires Pending(raw) && ScanName(raw, s, stop).Named? && !IsSpace(stop) && stop != '\\'
    ensures var r := RawName(raw, s, stop);
            r != [] && (IsSpace(r[0]) <==> OpensBlank(Slashes(raw), s))
    decreases |s|
  {
    if s[0] == stop {
    } else if s[0] == '\n' {
      PendingJoined(raw);
      PendingStart(Joined(raw).value, s[1..], stop);
    } else {
      var next := raw + [s[0]];
      assert Front(next) == raw;
      if s[0] == '\\' || (IsSpace(s[0]) && raw != []) {
        if raw != [] {
          PendingJoined(raw);
        }
        PendingStart(next, s[1..], stop);
      } else {
        assert next[|raw|] == s[0];
        SettledStart(next, s[1..], stop);
      }
    }
  }

  /** A section name is in normal form exactly when the text behind the bracket does not open with a blank. */
  lemma NormalExactly(s: string)
    ensures var r := ScanName([], s, ']'); r.Named? ==> (NormalName(r.name) <==> !OpensBlank(0, s))
  {
    if ScanName([], s, ']').Named? {
      NameFromRaw([], s, ']');
      PendingStart([], s, ']');
      CollapseNormal(RawName([], s, ']'));
    }
  }

  // Reprinting

  /** A character that neither trimming nor joining can remove keeps all before it. */
  lemma {:induction false} KeepsText(raw: string, joint: nat, s: string, k: nat)
    requires joint <= |raw| && k < |raw| && !IsSpace(raw[k]) && raw[k] != '\\'
    ensures raw[..k + 1] <= ScanValue(raw, joint, s).value
    decreases |s|
  {
    var t := TrimRight(raw);
    assert k < |t| && t[k] == raw[k];
    if s == [] || s[0] == NUL {
    } else if s[0] == '\r' {
      KeepsText(raw, joint, s[1..], k);
    } else if s[0] == '\n' {
      if Joined(raw).Some? {
        var j := Joined(raw).value;
        assert j[..k + 1] == raw[..k + 1];
        KeepsText(j, |j|, s[1..], k);
      }
    } else {
      assert (raw + [s[0]])[..k + 1] == raw[..k + 1];
      KeepsText(raw + [s[0]], joint, s[1..], k);
    }
  }

  lemma ScanOn(raw: string, joint: nat, s: string)
    requires joint <= |raw| && s != [] && s[0] != NUL && s[0] != '\r' && s[0] != '\n'
    ensures ScanValue(raw, joint, s) == ScanValue(raw + [s[0]], joint, s[1..])
  {
  }

  lemma KeepsAll(raw: string, joint: nat, s: string)
    requires joint <= |raw| && raw != [] && !IsSpace(Last(raw)) && Last(raw) != '\\'
    ensures raw <= ScanValue(raw, joint, s).value
  {
    KeepsText(raw, joint, s, |raw| - 1);
    assert raw[..|raw|] == raw;
  }

  /** What a joined line goes on with, in printed text: the tab of a parameter line and its name. */
  lemma AfterTab(a: string, s: string)
    requires |s| >= 2 && s[0] == '\t' && !IsSpace(s[1]) && s[1] != '\\' && s[1] != NUL
    ensures a + [s[0]] + [s[1]] <= ScanValue(a, |a|, s).value
  {
    var s1 := s[1..];
    ScanOn(a, |a|, s);
    ScanOn(a + [s[0]], |a|, s1);
    KeepsAll(a + [s[0]] + [s1[0]], |a|, s1[1..]);
  }

  lemma AfterBracket(b: string, s: string)
    requires s != [] && s[0] == '['
    ensures b + [s[0]] <= ScanValue(b, |b|, s).value
  {
    var raw := b + [s[0]];
    assert Last(raw) == '[';
    ScanOn(b, |b|, s);
    KeepsAll(raw, |b|, s[1..]);
  }

  lemma JoinOn(raw: string, joint: nat, s: string)
    requires joint <= |raw| && s != [] && s[0] == '\n'
    ensures ScanValue(raw, joint, s) ==
            match Joined(raw)
            case None => Valued(ValueOf(raw, joint), s[1..])
            case Some(joined) => ScanValue(joined, |joined|, s[1..])
  {
  }

  lemma AtJoint(a: string)
    ensures ValueOf(a, |a|) == a
  {
    assert a[..|a|] == a;
  }

  /** Or the empty line before a header: joined again, the bracket follows; else the value ends. */
  lemma AfterNewline(a: string, s: string)
    requires |s| >= 2 && s[0] == '\n' && s[1] == '['
    ensures var v := ScanValue(a, |a|, s).value;
            match Joined(a)
            case None => v == a
            case Some(b) => b + [s[1]] <= v
  {
    JoinOn(a, |a|, s);
    match Joined(a)
    case None => AtJoint(a);
    case Some(b) => AfterBracket(b, s[1..]);
  }

  lemma LineStart(e: Event, rest: string)
    requires Deliverable(e)
    ensures var s := LineText(e) + rest;
            && |s| >= 2
            && if e.Section? then s[0] == '\n' && s[1] == '[' else s[0] == '\t' && s[1] == e.name[0]
  {
  }

  /** The lines that follow a value are none of its own. */
  lemma ContinuedMisread(value: string, es: seq<Event>)
    requires OneLine(value) && Joined(SkipBlank(value)).Some?
    requires forall e :: e in es ==> Deliverable(e)
    ensures LineValue(value, Layout(es)).value != value
  {
    var w, b := SkipBlank(value), Blanks(value);
    var a := Joined(w).value;
    assert value == b + w && w[|a|] == '\\' && a == w[..|a|];
    if es != [] {
      LineStart(es[0], Layout(es[1..]));
      if es[0].Param? {
        TabMisread(value, b, w, a, Layout(es));
      } else {
        HeaderMisread(value, b, w, a, Layout(es));
      }
    }
  }

  lemma TabMisread(value: string, b: string, w: string, a: string, s: string)
    requires value == b + w && (forall c :: c in b ==> IsBlank(c)) && |a| < |w| && w[|a|] == '\\' && a == w[..|a|]
    requires !IsBlank(w[0])
    requires |s| >= 2 && s[0] == '\t' && !IsSpace(s[1]) && s[1] != '\\' && s[1] != NUL
    ensures ScanValue(a, |a|, s).value != value
  {
    AfterTab(a, s);
    assert a + [s[0]] + [s[1]] == a + [s[0], s[1]];
    Differs(value, b, w, a, [s[0], s[1]], ScanValue(a, |a|, s).value);
  }

  lemma HeaderMisread(value: string, b: string, w: string, a: string, s: string)
    requires value == b + w && (forall c :: c in b ==> IsBlank(c)) && |a| < |w| && a == w[..|a|]
    requires !IsBlank(w[0])
    requires |s| >= 2 && s[0] == '\n' && s[1] == '['
    ensures ScanValue(a, |a|, s).value != value
  {
    AfterNewline(a, s);
    if Joined(a).Some? {
      var c := Joined(a).value;
      assert w[|c|] == '\\' && c == w[..|c|];
      Differs(value, b, w, c, [s[1]], ScanValue(a, |a|, s).value);
    }
  }

  lemma Differs(value: string, b: string, w: string, a: string, more: string, v: string)
    requires value == b + w && (forall c :: c in b ==> IsBlank(c)) && |a| < |w| && w[|a|] == '\\' && a == w[..|a|]
    requires !IsBlank(w[0])
    requires more == ['['] || (|more| == 2 && more[0] == '\t' && !IsSpace(more[1]) && more[1] != '\\')
    requires a + more <= v
    ensures v != value
  {
    if b == [] {
      assert value[|a|] == '\\' && v[|a|] == more[0];
    } else {
      assert value[0] == b[0] && b[0] in b;
      if a == [] {
        assert w[0] == '\\' && v[0] == more[0];
        if |more| == 2 {
          assert v[1] == more[1];
          assert value[1] == if |b| == 1 then w[0] else b[1];
          assert |b| > 1 ==> b[1] in b;
        }
      } else {
        assert v[0] == a[0] == w[0];
      }
    }
  }

  lemma ValueMisread(value: string, es: seq<Event>)
    requires OneLine(value) && '\r' !in value && !GoodValue(value)
    requires forall e :: e in es ==> Deliverable(e)
    ensures LineValue(value, Layout(es)).value != value
  {
    if Joined(SkipBlank(value)).Some? {
      ContinuedMisread(value, es);
    } else {
      ParamPrintable(value);
    }
  }

  lemma VisibleName(name: string)
    requires name != [] && !IsSpace(Last(name))
    ensures NameOf(SkipBlank(name)) != []
  {
    var b, w := Blanks(name), SkipBlank(name);
    assert name == b + w;
    assert b != [] ==> Last(b) in b;
    CollapseNormal(w);
  }

  /** A call that is not printable is read back as another one. */
  lemma Misread(e: Event, es: seq<Event>, done: seq<Event>, answer: Answer) returns (other: Event, after: string)
    requires Deliverable(e) && !Printable(e)
    requires forall d :: d in es ==> Deliverable(d)
    requires forall h :: answer(h)
    ensures other != e
    ensures ParseFrom(SkipBlank(LineText(e) + Layout(es)), done, answer) == ParseFrom(after, done + [other], answer)
  {
    match e
    case Section(name) =>
      SectionLine(name, Layout(es), done, answer);
      SectionPrintable(name);
      VisibleName(name);
      other, after := Section(NameOf(SkipBlank(name))), SkipBlank(Layout(es));
    case Param(name, value) =>
      ParamLine(name, value, Layout(es), done, answer);
      ValueMisread(value, es);
      var v := LineValue(value, Layout(es));
      other, after := Param(name, v.value), SkipBlank(v.rest);
  }

  /** A list of calls is read back from its printed form if and only if each of them is printable. */
  lemma {:induction false} LayoutExactly(es: seq<Event>, done: seq<Event>, answer: Answer)
    requires forall e :: e in es ==> Deliverable(e)
    requires forall h :: answer(h)
    ensures ParseFrom(SkipBlank(Layout(es)), done, answer) == (true, done + es) <==>
            forall e :: e in es ==> Printable(e)
  {
    if es == [] {
      assert done + es == done;
    } else {
      var e, rest := es[0], es[1..];
      assert done + es == done + [e] + rest && es == [e] + rest;
      if Printable(e) {
        PrintableLine(e, Layout(rest), done, answer);
        LayoutExactly(rest, done + [e], answer);
      } else {
        var other, after := Misread(e, rest, done, answer);
        StopsAtRefusal(after, done + [other], answer);
        assert (done + es)[|done|] == e;
      }
    }
  }

  /** For every file: the reprint of what was read is read as the same calls exactly when all are printable. */
  lemma ReprintExactly(text: string, answer: Answer)
    requires forall h :: answer(h)
    ensures var es := Parse(text, answer).1;
            Parse(Layout(es), answer) == (true, es) <==> forall e :: e in es ==> Printable(e)
  {
    var es := Parse(text, answer).1;
    FileDeliverable(text, answer);
    LayoutExactly(es, [], answer);
    assert [] + es == es;
  }

  // Files without continuations

  predicate EndsAt(s: string, j: nat)
    requires j <= |s|
  {
    j == |s| || s[j] == '\n' || s[j] == NUL
  }

  /** No line ends in a backslash, apart from white space. */
  ghost predicate Uncontinued(s: string) {
    forall i, j :: 0 <= i < j <= |s| && s[i] == '\\' && EndsAt(s, j) ==> exists k :: i < k < j && !IsSpace(s[k])
  }

  predicate IsSuffix(r: string, s: string) {
    |r| <= |s| && r == s[|s| - |r|..]
  }

  lemma SuffixUncontinued(r: string, s: string)
    requires IsSuffix(r, s) && Uncontinued(s)
    ensures Uncontinued(r)
  {
    var d := |s| - |r|;
    forall i, j | 0 <= i < j <= |r| && r[i] == '\\' && EndsAt(r, j)
      ensures exists k :: i < k < j && !IsSpace(r[k])
    {
      assert s[i + d] == '\\' && EndsAt(s, j + d);
      var k :| i + d < k < j + d && !IsSpace(s[k]);
      assert r[k - d] == s[k];
    }
  }

  /** At the end of a line, the line is not continued. */
  lemma LineEnds(raw: string, s: string)
    requires Uncontinued(raw + s) && EndsAt(s, 0)
    ensures Joined(raw).None?
  {
    var t, all := TrimRight(raw), raw + s;
    assert EndsAt(all, |raw|);
    assert forall k :: 0 <= k < |raw| ==> all[k] == raw[k];
    assert forall k :: |t| <= k < |raw| ==> IsSpace(all[k]);
  }

  /** Leaving out white space continues no line. */
  lemma DropReturn(raw: string, s: string)
    requires Uncontinued(raw + ['\r'] + s)
    ensures Uncontinued(raw + s)
  {
    var all, less, n := raw + ['\r'] + s, raw + s, |raw|;
    assert forall x :: 0 <= x < |less| ==> less[x] == all[Skipped(n, x)];
    forall i, j | 0 <= i < j <= |less| && less[i] == '\\' && EndsAt(less, j)
      ensures exists k :: i < k < j && !IsSpace(less[k])
    {
      var i', j' := Skipped(n, i), Skipped(n, j);
      assert all[i'] == '\\';
      assert EndsAt(all, j');
      var k' :| i' < k' < j' && !IsSpace(all[k']);
      var k := if k' < n then k' else k' - 1;
      assert Skipped(n, k) == k' && less[k] == all[k'];
    }
  }

  function Skipped(n: nat, x: nat): nat {
    if x < n then x else x + 1
  }

  lemma {:induction false} SkipSuffix(s: string)
    ensures IsSuffix(SkipBlank(s), s) && IsSuffix(SkipLine(s), s)
  {
    if s != [] {
      SkipSuffix(s[1..]);
    }
  }

  lemma {:induction false} NameSuffix(raw: string, s: string, stop: char)
    ensures var r := ScanName(raw, s, stop);
            (r.Named? || r.Broken?) ==> IsSuffix(r.rest, s)
    decreases |s|
  {
    if s != [] && s[0] != stop && s[0] != NUL {
      if s[0] != '\n' {
        NameSuffix(raw + [s[0]], s[1..], stop);
      } else if Joined(raw).Some? {
        NameSuffix(Joined(raw).value, s[1..], stop);
      }
    }
  }

  lemma {:induction false} ValueSuffix(raw: string, joint: nat, s: string)
    requires joint <= |raw|
    ensures IsSuffix(ScanValue(raw, joint, s).rest, s)
    decreases |s|
  {
    if s != [] && s[0] != NUL {
      if s[0] == '\r' {
        ValueSuffix(raw, joint, s[1..]);
      } else if s[0] != '\n' {
        ValueSuffix(raw + [s[0]], joint, s[1..]);
      } else if Joined(raw).Some? {
        ValueSuffix(Joined(raw).value, |Joined(raw).value|, s[1..]);
      }
    }
  }

  lemma {:induction false} PlainName(raw: string, s: string, stop: char)
    requires Uncontinued(raw + s) && !IsSpace(stop) && stop != NUL
    requires if raw == [] then s == [] || !IsBlank(s[0]) else !IsSpace(raw[0])
    ensures var r := ScanName(raw, s, stop); r.Named? ==> NormalName(r.name)
    decreases |s|
  {
    if s == [] || s[0] == NUL {
    } else if s[0] == stop {
      CollapseNormal(raw);
    } else if s[0] == '\n' {
      LineEnds(raw, s);
    } else {
      assert raw + [s[0]] + s[1..] == raw + s;
      PlainName(raw + [s[0]], s[1..], stop);
    }
  }

  lemma {:induction false} PlainValue(raw: string, s: string)
    requires Uncontinued(raw + s)
    requires if raw == [] then s == [] || !IsBlank(s[0]) else !IsSpace(raw[0])
    ensures var v := ScanValue(raw, 0, s).value;
            v != [] ==> !IsSpace(v[0]) && !IsSpace(Last(v)) && Last(v) != '\\'
    decreases |s|
  {
    if EndsAt(s, 0) {
      LineEnds(raw, s);
    } else if s[0] == '\r' {
      assert raw + ['\r'] + s[1..] == raw + s;
      DropReturn(raw, s[1..]);
      PlainValue(raw, s[1..]);
    } else {
      assert raw + [s[0]] + s[1..] == raw + s;
      PlainValue(raw + [s[0]], s[1..]);
    }
  }

  lemma SkipsOn(s: string)
    requires Uncontinued(s)
    ensures Uncontinued(SkipBlank(s)) && Uncontinued(SkipLine(s)) && Uncontinued(Tail(s))
  {
    SkipSuffix(s);
    SuffixUncontinued(SkipBlank(s), s);
    SuffixUncontinued(SkipLine(s), s);
    SuffixUncontinued(Tail(s), s);
  }

  lemma PlainSection(s: string)
    requires Uncontinued(s) && (s != [] ==> !IsBlank(s[0]))
    ensures match ScanName([], s, ']')
            case Named(name, rest) => Printable(Section(name)) && Uncontinued(SkipBlank(Tail(SkipLine(rest))))
            case _ => true
  {
    assert [] + s == s;
    PlainName([], s, ']');
    ScannedName([], s, ']');
    match ScanName([], s, ']')
    case Named(name, rest) =>
      NameSuffix([], s, ']');
      SuffixUncontinued(rest, s);
      SkipsOn(rest);
      SkipsOn(SkipLine(rest));
      SkipsOn(Tail(SkipLine(rest)));
    case _ =>
  }

  lemma PlainParam(rest: string)
    requires Uncontinued(rest)
    ensures var v := ScanValue([], 0, SkipBlank(rest)); GoodValue(v.value) && Uncontinued(SkipBlank(v.rest))
  {
    var s := SkipBlank(rest);
    SkipsOn(rest);
    assert [] + s == s;
    PlainValue([], s);
    ScannedValue([], 0, s);
    ValueSuffix([], 0, s);
    SuffixUncontinued(ScanValue([], 0, s).rest, s);
    SkipsOn(ScanValue([], 0, s).rest);
  }

  predicate AllPrintable(es: seq<Event>) {
    forall e :: e in es ==> Printable(e)
  }

  lemma {:induction false} PlainPrintable(s: string, done: seq<Event>, answer: Answer)
    requires Uncontinued(s) && (s != [] ==> !IsBlank(s[0])) && AllPrintable(done)
    ensures AllPrintable(ParseFrom(s, done, answer).1)
    decreases |s|, 1
  {
    if s == [] || s[0] == NUL {
      return;
    }
    SkipsOn(s);
    SkipsOn(s[1..]);
    if s[0] == '\n' || s[0] == '\\' {
      PlainPrintable(SkipBlank(s[1..]), done, answer);
    } else if s[0] == ';' || s[0] == '#' {
      PlainPrintable(SkipLine(s[1..]), done, answer);
    } else if s[0] == '[' {
      PlainSection(SkipBlank(s[1..]));
      match ScanName([], SkipBlank(s[1..]), ']')
      case Named(name, rest) => PlainThen(SkipBlank(Tail(SkipLine(rest))), done, Section(name), answer);
      case _ =>
    } else {
      PlainLine(s, done, answer);
    }
  }

  lemma {:induction false} PlainThen(rest: string, done: seq<Event>, e: Event, answer: Answer)
    requires Uncontinued(rest) && (rest != [] ==> !IsBlank(rest[0])) && AllPrintable(done) && Printable(e)
    ensures AllPrintable(done + [e])
    ensures answer(done + [e]) ==> AllPrintable(ParseFrom(rest, done + [e], answer).1)
    decreases |rest|, 2
  {
    if answer(done + [e]) {
      PlainPrintable(rest, done + [e], answer);
    }
  }

  lemma {:induction false} PlainLine(s: string, done: seq<Event>, answer: Answer)
    requires Uncontinued(s) && AllPrintable(done)
    requires s != [] && s[0] != NUL && s[0] != '\n' && !LeadIn(s[0]) && !IsBlank(s[0])
    ensures AllPrintable(ParseFrom(s, done, answer).1)
    decreases |s|, 0
  {
    ScannedName([], s, '=');
    NameSuffix([], s, '=');
    match ScanName([], s, '=')
    case Nameless =>
    case Broken(rest) =>
      SuffixUncontinued(rest, s);
      SkipsOn(rest);
      PlainPrintable(SkipBlank(rest), done, answer);
    case Named(name, rest) =>
      SuffixUncontinued(rest, s);
      PlainParam(rest);
      var v := ScanValue([], 0, SkipBlank(rest));
      PlainThen(SkipBlank(v.rest), done, Param(name, v.value), answer);
  }

  /** A file in which no line ends in a backslash, apart from white space, is reprinted without loss. */
  lemma ReprintLossless(text: string, answer: Answer)
    requires Uncontinued(text)
    requires forall h :: answer(h)
    ensures Parse(Layout(Parse(text, answer).1), answer) == (true, Parse(text, answer).1)
  {
    SkipsOn(text);
    PlainPrintable(SkipBlank(text), [], answer);
    ReprintExactly(text, answer);
  }

  // Inputs for which the promise fails

  /** A value continued onto a blank line is delivered with the white space before its backslash:
      it is stripped exactly when there was none. */
  lemma BlankContinuation(name: string, a: string, w: string, rest: string, done: seq<Event>, answer: Answer)
    requires GoodKey(name) && OneLine(a) && '\r' !in a && a != [] && !IsSpace(a[0]) && Joined(a).None?
    requires forall c :: c in w ==> IsBlank(c) && c != '\r'
    requires forall h :: answer(h)
    ensures ParseFrom(SkipBlank(LineText(Param(name, a + "\\")) + (w + "\n" + rest)), done, answer) ==
            ParseFrom(SkipBlank(rest), done + [Param(name, a)], answer)
    ensures GoodValue(a) <==> !IsSpace(Last(a))
  {
    var after := w + "\n" + rest;
    ParamLine(name, a + "\\", after, done, answer);
    ContinuedValue(a, after);
    BlankTail(a, w, a, rest);
  }

  lemma ContinuedValue(a: string, after: string)
    requires a != [] && !IsSpace(a[0])
    ensures LineValue(a + "\\", after) == ScanValue(a, |a|, after)
  {
    var v := a + "\\";
    assert Front(v) == a && Last(v) == '\\';
    assert TrimRight(v) == v;
    assert SkipBlank(v) == v;
  }

  lemma {:induction false} BlankTail(raw: string, w: string, a: string, rest: string)
    requires a <= raw && TrimRight(raw) == TrimRight(a) && Joined(a).None?
    requires forall c :: c in w ==> IsBlank(c) && c != '\r'
    requires NUL !in w
    ensures ScanValue(raw, |a|, w + "\n" + rest) == Valued(a, rest)
    decreases |w|
  {
    if w == [] {
      assert w + "\n" + rest == "\n" + rest;
      assert ("\n" + rest)[1..] == rest;
      assert |TrimRight(raw)| <= |a|;
      if |TrimRight(raw)| == |a| {
        assert TrimRight(a) == a;
      }
    } else {
      assert (w + "\n" + rest)[1..] == w[1..] + "\n" + rest;
      assert Front(raw + [w[0]]) == raw;
      assert w[0] in w;
      BlankTail(raw + [w[0]], w[1..], a, rest);
    }
  }

  /** After a continuation right behind '[', leading white space of the next line stays in the section
      name: the name is in normal form exactly when there is none. */
  lemma LeadingContinuation(x: string, rest: string)
    requires OneLine(x) && ']' !in x && NameOf(x) != []
    ensures ScanName([], "\\\n" + (x + "]" + rest), ']') == Named(NameOf(x), rest)
    ensures NormalName(NameOf(x)) <==> !IsSpace(x[0])
  {
    ContinuedAtOnce(x + "]" + rest);
    ScanTo(x, rest);
    CollapseNormal(x);
  }

  lemma ContinuedAtOnce(after: string)
    ensures ScanName([], "\\\n" + after, ']') == ScanName([], after, ']')
  {
  }

  lemma ScanTo(x: string, rest: string)
    requires OneLine(x) && ']' !in x && NameOf(x) != []
    ensures ScanName([], x + "]" + rest, ']') == Named(NameOf(x), rest)
  {
    assert x + "]" + rest == x + ("]" + rest);
    ScanPlain([], x, "]" + rest, ']');
    assert [] + x == x;
    assert ("]" + rest)[1..] == rest;
  }

  /** However many lines hold only a backslash and white space, they change nothing: what comes next decides. */
  lemma {:induction false} OpeningGroup(k: nat, w: string, s: string)
    requires forall c :: c in w ==> IsBlank(c)
    ensures OpensBlank(k + 1, w + ("\n" + s)) == OpensBlank(k, s)
  {
    var all := w + ("\n" + s);
    if w == [] {
      assert all[0] == '\n' && all[1..] == s;
    } else {
      assert all[0] == w[0] && w[0] in w && all[1..] == w[1..] + ("\n" + s);
      OpeningGroup(k, w[1..], s);
    }
  }

  /** A value whose first line is only a backslash keeps the white space that starts the next one. */
  lemma LeadingValue(x: string, rest: string)
    requires OneLine(x) && '\r' !in x && Joined(x).None? && TrimRight(x) != []
    ensures ScanValue([], 0, "\\\n" + (x + "\n" + rest)) == Valued(TrimRight(x), rest)
    ensures Stripped(TrimRight(x)) <==> !IsSpace(x[0])
  {
    var after := x + "\n" + rest;
    ContinuedValueAtOnce(after);
    assert x + "\n" + rest == x + ("\n" + rest);
    ScanPlainValue([], x, "\n" + rest);
    assert [] + x == x && ("\n" + rest)[1..] == rest;
  }

  lemma ContinuedValueAtOnce(after: string)
    ensures ScanValue([], 0, "\\\n" + after) == ScanValue([], 0, after)
  {
    assert ("\\\n" + after)[1..] == "\n" + after && ("\n" + after)[1..] == after;
    assert [] + ['\\'] == "\\" && Joined("\\") == Some([]);
  }
}
