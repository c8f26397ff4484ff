/** The scanner of params.c: one read pointer, one growable buffer, names collapsed in place.
    Every method is proved against ConfSpec, on every text and with no bound on lengths;
    array accesses are in bounds and all loops terminate. */
module Scanner {
  import opened Text
  import opened ConfSpec

  const BUFR_INC: nat := 1024

  datatype Sym = Eof | Ch(c: char)

  class ConfFile {
    const text: string
    var p: nat
    var bufr: array<char>

    ghost predicate Valid()
      reads this
    {
      p <= |text| && bufr.Length >= BUFR_INC
    }

    /** `c` is the character before the read pointer, or the pointer is at end of file. */
    ghost predicate At(c: Sym)
      reads this
    {
      && p <= |text|
      && (c.Ch? ==> 0 < p && text[p - 1] == c.c)
      && (c.Eof? ==> p == |text|)
    }

    /** The text from the current character on. */
    ghost function Unread(c: Sym): string
      requires At(c)
      reads this
    {
      if c.Ch? then text[p - 1..] else []
    }

    constructor (text: string)
      ensures this.text == text && p == 0 && Valid() && fresh(bufr)
    {
      this.text := text;
      p := 0;
      bufr := new char[BUFR_INC];
    }

    method GetC() returns (c: Sym)
      requires Valid()
      modifies this`p
      ensures Valid() && At(c) && Unread(c) == old(text[p..])
      ensures c.Ch? ==> p == old(p) + 1
      ensures c.Eof? ==> p == old(p)
    {
      if p >= |text| {
        return Eof;
      }
      c := Ch(text[p]);
      p := p + 1;
    }

    method EatWhitespace() returns (c: Sym)
      requires Valid()
      modifies this`p
      ensures Valid() && At(c) && Unread(c) == SkipBlank(old(text[p..]))
    {
      c := GetC();
      while c.Ch? && IsBlank(c.c)
        invariant Valid() && At(c)
        invariant SkipBlank(Unread(c)) == SkipBlank(old(text[p..]))
        decreases |Unread(c)|
      {
        assert Unread(c)[1..] == text[p..];
        c := GetC();
      }
    }

    method EatComment() returns (c: Sym)
      requires Valid()
      modifies this`p
      ensures Valid() && At(c) && Unread(c) == SkipLine(old(text[p..]))
    {
      c := GetC();
      while c.Ch? && c.c != '\n' && c.c != NUL
        invariant Valid() && At(c)
        invariant SkipLine(Unread(c)) == SkipLine(old(text[p..]))
        decreases |Unread(c)|
      {
        assert Unread(c)[1..] == text[p..];
        c := GetC();
      }
    }

    /** The offset of the backslash that continues the line in `bufr[..pos]`, or -1. */
    method Continuation(pos: nat) returns (r: int)
      requires pos <= bufr.Length
      ensures r == (match Joined(bufr[..pos]) case None => -1 case Some(line) => |line|)
      ensures r >= 0 ==> r < pos && bufr[..r] == Joined(bufr[..pos]).value
    {
      r := pos - 1;
      while r >= 0 && IsSpace(bufr[r])
        invariant -1 <= r < pos
        invariant TrimRight(bufr[..r + 1]) == TrimRight(bufr[..pos])
      {
        assert Front(bufr[..r + 1]) == bufr[..r];
        r := r - 1;
      }
      ghost var t := TrimRight(bufr[..pos]);
      assert t == bufr[..r + 1];
      if !(r >= 0 && bufr[r] == '\\') {
        r := -1;
      } else {
        assert Front(t) == bufr[..r];
      }
    }

    /** Makes room for the next character and a terminator after it. */
    method Grow(i: nat)
      requires Valid() && i < bufr.Length
      modifies this`bufr
      ensures Valid() && (bufr == old(bufr) || fresh(bufr))
      ensures i <= bufr.Length - 2
      ensures bufr[..i] == old(bufr[..i])
    {
      if i > bufr.Length - 2 {
        var bigger := new char[bufr.Length + BUFR_INC];
        forall k | 0 <= k < bufr.Length {
          bigger[k] := bufr[k];
        }
        bufr := bigger;
      }
    }

    method GrowName(ghost raw: string, i: nat, ghost end: nat)
      requires Valid() && HoldsName(raw, i, end)
      modifies this`bufr
      ensures Valid() && (bufr == old(bufr) || fresh(bufr))
      ensures HoldsName(raw, i, end) && i <= bufr.Length - 2
      ensures end <= i && bufr[..end] == NameOf(raw)
    {
      Grow(i);
      assert bufr[..end] == bufr[..i][..end];
    }

    /** The loop Section and Parameter share: reads a name up to `stop` into `bufr[..end]`, collapsing
        white space in place. Two free bytes are left after the name. */
    method ReadName(first: Sym, stop: char) returns (named: bool, nameless: bool, end: nat)
      requires Valid() && At(first) && !IsSpace(stop) && stop != NUL
      modifies this, bufr
      ensures Valid() && (bufr == old(bufr) || fresh(bufr))
      ensures Reads(ScanName([], old(Unread(first)), stop), named, nameless, end)
    {
      named, nameless, end := false, false, 0;
      var i: nat, c := 0, first;
      ghost var raw := [];
      ghost var goal := ScanName([], old(Unread(first)), stop);
      while c.Ch? && c.c != NUL
        invariant Valid() && (bufr == old(bufr) || fresh(bufr))
        invariant At(c)
        invariant HoldsName(raw, i, end) && !named && !nameless
        invariant ScanName(raw, Unread(c), stop) == goal
        decreases |Unread(c)|
      {
        var ended;
        ended, named, nameless, c, raw, i, end := NameTurn(c, stop, raw, i, end);
        if ended {
          return;
        }
      }
      assert c.Ch? ==> Unread(c)[1..] == text[p..];
    }

    /** What reading a name has come to, against the meaning `r` of the text it read. */
    ghost predicate Reads(r: Scanned, named: bool, nameless: bool, end: nat)
      requires Valid()
      reads this, bufr
    {
      && named == r.Named? && nameless == r.Nameless?
      && (named ==> end <= bufr.Length - 2 && bufr[..end] == r.name && text[p..] == r.rest)
      && (r.Broken? ==> text[p..] == r.rest)
    }

    method NameTurn(c: Sym, stop: char, ghost raw: string, i: nat, end: nat)
      returns (ended: bool, named: bool, nameless: bool, c': Sym, ghost raw': string, i': nat, end': nat)
      requires Valid() && At(c) && c.Ch? && c.c != NUL && !IsSpace(stop)
      requires HoldsName(raw, i, end)
      modifies this, bufr
      ensures Valid() && (bufr == old(bufr) || fresh(bufr))
      ensures ended ==> Reads(ScanName(raw, old(Unread(c)), stop), named, nameless, end')
      ensures !ended ==>
                && !named && !nameless
                && At(c') && |Unread(c')| < old(|Unread(c)|) && HoldsName(raw', i', end')
                && ScanName(raw', Unread(c'), stop) == ScanName(raw, old(Unread(c)), stop)
    {
      GrowName(raw, i, end);
      named, nameless := false, false;
      if c.c == stop {
        assert Unread(c)[1..] == text[p..];
        return true, end != 0, end == 0, c, raw, i, end;
      }
      ended, c', raw', i', end' := NameStep(c, stop, raw, i, end);
    }

    /** A section header, after its '['. The name is the callback's argument; the rest of the line is skipped. */
    method ReadSection(answer: Answer, calls: seq<Event>)
      returns (ok: bool, calls': seq<Event>)
      requires Valid()
      modifies this, bufr
      ensures Valid() && (bufr == old(bufr) || fresh(bufr))
      ensures match ScanName([], SkipBlank(old(text[p..])), ']')
              case Named(name, rest) =>
                && calls' == calls + [Section(name)]
                && ok == answer(calls')
                && (ok ==> text[p..] == Tail(SkipLine(rest)))
              case _ => !ok && calls' == calls
    {
      calls' := calls;
      var c := EatWhitespace();
      var named, nameless, end := ReadName(c, ']');
      if !named {
        return false, calls;
      }
      bufr[end] := NUL;
      calls' := calls + [Section(bufr[..end])];
      ok := answer(calls');
      if ok {
        c := EatComment();
        assert text[p..] == Tail(Unread(c));
      }
    }

    /** A parameter's value, read into the buffer after the name and the NUL that ends it. */
    method ReadValue(vstart: nat) returns (end: nat)
      requires Valid()
      requires 0 < vstart < bufr.Length && bufr[vstart - 1] == NUL
      modifies this, bufr
      ensures Valid() && (bufr == old(bufr) || fresh(bufr))
      ensures vstart <= end < bufr.Length
      ensures bufr[..vstart] == old(bufr[..vstart])
      ensures var r := ScanValue([], 0, SkipBlank(old(text[p..])));
              bufr[vstart..end] == r.value && text[p..] == r.rest
    {
      var c := EatWhitespace();
      ghost var name := bufr[..vstart];
      assert name + [] == name;
      ghost var raw, joint, i;
      end, raw, joint, i := ValueLoop(c, vstart, name);
      ValueHeld(name, raw, joint, i, end);
    }

    method ValueLoop(first: Sym, vstart: nat, ghost name: string)
      returns (end: nat, ghost raw: string, ghost joint: nat, ghost length: nat)
      requires Valid() && At(first) && HoldsValue(name, [], 0, vstart, vstart)
      modifies this, bufr
      ensures Valid() && (bufr == old(bufr) || fresh(bufr))
      ensures HoldsValue(name, raw, joint, length, end)
      ensures ScanValue([], 0, old(Unread(first))) == Valued(ValueOf(raw, joint), text[p..])
    {
      var i: nat, c := vstart, first;
      end, raw, joint := vstart, [], 0;
      while c.Ch? && c.c != NUL
        invariant Valid() && (bufr == old(bufr) || fresh(bufr))
        invariant At(c)
        invariant HoldsValue(name, raw, joint, i, end)
        invariant ScanValue(raw, joint, Unread(c)) == ScanValue([], 0, old(Unread(first)))
        decreases |Unread(c)|
      {
        var ended;
        ended, c, raw, joint, i, end := ValueStep(c, name, raw, joint, i, end);
        if ended {
          length := i;
          return;
        }
      }
      assert c.Ch? ==> Unread(c)[1..] == text[p..];
      length := i;
    }

    /** A parameter line, from its first character `first`. */
    method ReadParameter(first: Sym, answer: Answer, calls: seq<Event>)
      returns (ok: bool, calls': seq<Event>)
      requires Valid() && At(first)
      modifies this, bufr
      ensures Valid() && (bufr == old(bufr) || fresh(bufr))
      ensures match ScanName([], old(Unread(first)), '=')
              case Nameless => !ok && calls' == calls
              case Broken(rest) => ok && calls' == calls && text[p..] == rest
              case Named(name, rest) =>
                var v := ScanValue([], 0, SkipBlank(rest));
                && calls' == calls + [Param(name, v.value)]
                && ok == answer(calls')
                && text[p..] == v.rest
    {
      calls' := calls;
      var named, nameless, end := ReadName(first, '=');
      if nameless {
        return false, calls;
      }
      if !named {
        return true, calls;
      }
      var name, value := TakeValue(end);
      calls' := calls + [Param(name, value)];
      ok := answer(calls');
    }

    /** Ends the name in the buffer, reads the value behind it and ends that too. */
    method TakeValue(nameEnd: nat) returns (name: string, value: string)
      requires Valid() && nameEnd <= bufr.Length - 2
      modifies this, bufr
      ensures Valid() && (bufr == old(bufr) || fresh(bufr))
      ensures name == old(bufr[..nameEnd])
      ensures Valued(value, text[p..]) == ScanValue([], 0, SkipBlank(old(text[p..])))
    {
      var vstart := nameEnd + 1;
      ghost var head := Terminate(nameEnd);
      var end := ReadValue(vstart);
      name, value := bufr[..nameEnd], bufr[vstart..end];
      assert name == head[..nameEnd];
      bufr[end] := NUL;
    }

    /** A NUL after the name and, to start with, an empty value. */
    method Terminate(nameEnd: nat) returns (ghost head: string)
      requires Valid() && nameEnd <= bufr.Length - 2
      modifies bufr
      ensures head == bufr[..nameEnd + 1] && bufr[nameEnd] == NUL
      ensures head[..nameEnd] == old(bufr[..nameEnd])
    {
      bufr[nameEnd] := NUL;
      bufr[nameEnd + 1] := NUL;
      head := bufr[..nameEnd + 1];
    }

    /** The buffer holds a fenced name, then the raw value up to `i`; the value ends at `end`. */
    ghost predicate HoldsValue(name: string, raw: string, joint: nat, i: nat, end: nat)
      reads this, bufr
    {
      && name != [] && Last(name) == NUL && joint <= |raw|
      && |name| <= end <= i < bufr.Length
      && bufr[..i] == name + raw
      && end == |name| + |ValueOf(raw, joint)|
    }

    lemma ValueHeld(name: string, raw: string, joint: nat, i: nat, end: nat)
      requires HoldsValue(name, raw, joint, i, end)
      ensures bufr[..|name|] == name && bufr[|name|..end] == ValueOf(raw, joint)
    {
      assert bufr[..|name|] == bufr[..i][..|name|];
      assert bufr[|name|..end] == bufr[..i][|name|..end];
      assert ValueOf(raw, joint) == raw[..end - |name|];
    }

    method GrowValue(ghost name: string, ghost raw: string, ghost joint: nat, i: nat, ghost end: nat)
      requires Valid() && HoldsValue(name, raw, joint, i, end)
      modifies this`bufr
      ensures Valid() && (bufr == old(bufr) || fresh(bufr))
      ensures HoldsValue(name, raw, joint, i, end) && i <= bufr.Length - 2
    {
      Grow(i);
    }

    /** One character of a value: a dropped '\\r', a continued or an ended line, or a character. */
    method ValueStep(c: Sym, ghost name: string, ghost raw: string, ghost joint: nat, i: nat, end: nat)
      returns (ended: bool, c': Sym, ghost raw': string, ghost joint': nat, i': nat, end': nat)
      requires Valid() && At(c) && c.Ch? && c.c != NUL
      requires HoldsValue(name, raw, joint, i, end)
      modifies this, bufr
      ensures Valid() && (bufr == old(bufr) || fresh(bufr))
      ensures HoldsValue(name, raw', joint', i', end')
      ensures ended ==> ScanValue(raw, joint, old(Unread(c))) == Valued(ValueOf(raw', joint'), text[p..])
      ensures !ended ==>
                && At(c') && |Unread(c')| < old(|Unread(c)|)
                && ScanValue(raw', joint', Unread(c')) == ScanValue(raw, joint, old(Unread(c)))
    {
      ended, c', raw', joint', i', end' := false, c, raw, joint, i, end;
      assert Unread(c)[1..] == text[p..];
      GrowValue(name, raw, joint, i, end);
      if c.c == '\r' {
        c' := GetC();
      } else if c.c == '\n' {
        var cut := ContinuationInValue(name, raw, i);
        if cut < 0 {
          ended := true;
        } else {
          raw' := Joined(raw).value;
          joint' := |raw'|;
          i' := cut;
          // `cut` is the offset of the backslash, which is no space: nothing is trimmed
          var trimmed := TrimFrom(cut);
          end' := trimmed;
          c' := GetC();
        }
      } else {
        raw', i', end' := PutValueChar(name, raw, joint, i, end, c.c);
        c' := GetC();
      }
    }

    /** The continuation test inside a value stops at the NUL before it. */
    method ContinuationInValue(ghost name: string, ghost raw: string, i: nat) returns (cut: int)
      requires i <= bufr.Length && bufr[..i] == name + raw
      requires name != [] && Last(name) == NUL
      ensures cut < 0 <==> Joined(raw).None?
      ensures cut >= 0 ==> |name| <= cut < i && bufr[..cut] == name + Joined(raw).value && bufr[cut] == '\\'
    {
      JoinedFence(name, raw);
      cut := Continuation(i);
      if cut >= 0 {
        assert bufr[cut] == bufr[..i][cut] == raw[cut - |name|];
        assert TrimRight(raw) <= raw;
      }
    }

    /** The backward loop that trims a joined line: the last non-space at or before `from`, or -1. */
    method TrimFrom(from: nat) returns (end: int)
      requires from < bufr.Length
      ensures -1 <= end <= from
      ensures end >= 0 ==> !IsSpace(bufr[end])
      ensures forall k :: end < k <= from ==> IsSpace(bufr[k])
    {
      end := from;
      while end >= 0 && IsSpace(bufr[end])
        invariant -1 <= end <= from
        invariant forall k :: end < k <= from ==> IsSpace(bufr[k])
      {
        end := end - 1;
      }
    }

    method PutValueChar(ghost name: string, ghost raw: string, ghost joint: nat, i: nat, end: nat, c: char)
      returns (ghost raw': string, i': nat, end': nat)
      requires HoldsValue(name, raw, joint, i, end) && i <= bufr.Length - 2
      modifies bufr
      ensures raw' == raw + [c] && HoldsValue(name, raw', joint, i', end')
    {
      ValueSnoc(raw, joint, c);
      bufr[i] := c;
      raw', i' := raw + [c], i + 1;
      end' := if IsSpace(c) then end else i';
      assert bufr[..i'] == name + raw + [c];
      assert name + raw + [c] == name + raw';
    }

    /** The buffer holds the raw text collapsed in `bufr[..i]` and its name in `bufr[..end]`. */
    ghost predicate HoldsName(raw: string, i: nat, end: nat)
      reads this, bufr
    {
      end <= i < bufr.Length && bufr[..i] == Collapse(raw) && bufr[..end] == NameOf(raw)
    }

    /** One character of a name: a continued or an ended line, a run of white space, or a character. */
    method NameStep(c: Sym, stop: char, ghost raw: string, i: nat, end: nat)
      returns (ended: bool, c': Sym, ghost raw': string, i': nat, end': nat)
      requires Valid() && At(c) && c.Ch? && c.c != NUL && c.c != stop && !IsSpace(stop)
      requires HoldsName(raw, i, end) && i <= bufr.Length - 2
      modifies this`p, bufr
      ensures Valid() && bufr == old(bufr)
      ensures ended ==> ScanName(raw, old(Unread(c)), stop) == Broken(text[p..])
      ensures !ended ==>
                && At(c') && |Unread(c')| < old(|Unread(c)|)
                && HoldsName(raw', i', end')
                && ScanName(raw', Unread(c'), stop) == ScanName(raw, old(Unread(c)), stop)
    {
      ended, c', raw', i', end' := false, c, raw, i, end;
      ghost var s := Unread(c);
      assert s[1..] == text[p..];
      if c.c == '\n' {
        CollapseJoined(raw);
        var cut := Continuation(i);
        if cut < 0 {
          ended := true;
        } else {
          raw', i', end' := JoinInPlace(raw, cut);
          c' := GetC();
        }
      } else if IsSpace(c.c) {
        raw', i' := PutSpace(raw, i, end, c.c);
        raw', c' := EatBlanks(raw', s[1..], i', end, stop);
      } else {
        raw', i' := PutChar(raw, i, end, c.c);
        end' := i';
        c' := GetC();
      }
    }

    method PutChar(ghost raw: string, i: nat, ghost end: nat, c: char) returns (ghost raw': string, i': nat)
      requires HoldsName(raw, i, end) && i <= bufr.Length - 2 && !IsSpace(c)
      modifies bufr
      ensures raw' == raw + [c] && HoldsName(raw', i', i')
    {
      CollapseSnoc(raw, c);
      bufr[i] := c;
      raw', i' := raw + [c], i + 1;
      assert bufr[..i'] == Collapse(raw) + [c];
    }

    method PutSpace(ghost raw: string, ghost i: nat, end: nat, c: char) returns (ghost raw': string, i': nat)
      requires HoldsName(raw, i, end) && i <= bufr.Length - 2 && IsSpace(c)
      modifies bufr
      ensures raw' == raw + [c] && HoldsName(raw', i', end)
    {
      CollapseSnoc(raw, c);
      bufr[end] := ' ';
      raw', i' := raw + [c], end + 1;
      assert bufr[..i'] == NameOf(raw) + [' '];
    }

    /** After a continuation in a name: `i` is cut back, and `end` drops a final space. */
    method JoinInPlace(ghost raw: string, cut: nat) returns (ghost raw': string, i: nat, end: nat)
      requires Joined(raw).Some?
      requires cut < bufr.Length
      requires bufr[..cut] == Collapse(Joined(raw).value)
      ensures raw' == Joined(raw).value
      ensures i == cut && HoldsName(raw', i, end)
    {
      raw' := Joined(raw).value;
      i := cut;
      end := if i > 0 && bufr[i - 1] == ' ' then i - 1 else i;
      CollapseWellSpaced(raw');
      WellSpacedEnd(Collapse(raw'));
      assert i > 0 ==> Front(bufr[..i]) == bufr[..i - 1];
    }

    /** Skips the rest of a run of white space inside a name. */
    method EatBlanks(ghost raw: string, ghost s: string, ghost i: nat, ghost end: nat, ghost stop: char)
      returns (ghost raw': string, c: Sym)
      requires Valid() && s == text[p..]
      requires raw != [] && IsSpace(Last(raw)) && !IsBlank(stop)
      requires HoldsName(raw, i, end)
      modifies this`p
      ensures Valid() && At(c)
      ensures |Unread(c)| <= |s|
      ensures HoldsName(raw', i, end)
      ensures ScanName(raw', Unread(c), stop) == ScanName(raw, s, stop)
    {
      raw' := raw + Blanks(s);
      ScanNameBlanks(raw, s, stop);
      assert forall b :: b in Blanks(s) ==> IsSpace(b);
      CollapseBlanks(raw, Blanks(s));
      c := EatWhitespace();
    }

    /** Parse: reads the whole file and makes the callbacks, stopping at the first one refused. */
    method ParseFile(answer: Answer) returns (ok: bool, calls: seq<Event>)
      requires Valid() && p == 0
      modifies this, bufr
      ensures (ok, calls) == Parse(text, answer)
    {
      ok, calls := true, [];
      var c := EatWhitespace();
      assert text[0..] == text;
      while c.Ch? && c.c != NUL
        invariant Valid() && (bufr == old(bufr) || fresh(bufr))
        invariant At(c) && ok
        invariant ParseFrom(Unread(c), calls, answer) == Parse(text, answer)
        decreases |Unread(c)|
      {
        c, ok, calls := ParseTurn(c, answer, calls);
        if !ok {
          return;
        }
      }
    }

    /** One line, or the start of one. */
    method ParseTurn(c: Sym, answer: Answer, calls: seq<Event>) returns (c': Sym, ok: bool, calls': seq<Event>)
      requires Valid() && At(c) && c.Ch? && c.c != NUL
      modifies this, bufr
      ensures Valid() && (bufr == old(bufr) || fresh(bufr))
      ensures !ok ==> ParseFrom(old(Unread(c)), calls, answer) == (false, calls')
      ensures ok ==>
                && At(c') && |Unread(c')| < old(|Unread(c)|)
                && ParseFrom(Unread(c'), calls', answer) == ParseFrom(old(Unread(c)), calls, answer)
    {
      ok, calls', c' := true, calls, c;
      assert Unread(c)[1..] == text[p..];
      match c.c {
        case '\n' => c' := EatWhitespace();
        case ';' => c' := EatComment();
        case '#' => c' := EatComment();
        case '\\' => c' := EatWhitespace();
        case '[' =>
          ok, calls' := ReadSection(answer, calls);
          if ok {
            c' := EatWhitespace();
          }
        case _ =>
          ok, calls' := ReadParameter(c, answer, calls);
          if ok {
            c' := EatWhitespace();
          }
      }
    }
  }

  /** Appending a character to a value moves its end only past a non-space. */
  lemma ValueSnoc(raw: string, joint: nat, c: char)
    requires joint <= |raw|
    ensures ValueOf(raw + [c], joint) == if IsSpace(c) then ValueOf(raw, joint) else raw + [c]
  {
  }
}
