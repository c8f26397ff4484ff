/** Character classes and string shapes shared by the configuration-file modules.
    Characters stand for bytes; `IsSpace` is isspace(3) in the C locale. */
module Text {

  datatype Option<+T> = None | Some(value: T)

  const NUL: char := '\0'

  /** Space, or one of \t \n \v \f \r (codes 9 to 13). */
  predicate IsSpace(c: char) {
    c == ' ' || '\t' <= c <= '\r'
  }

  /** White space other than the newline, which ends a line. */
  predicate IsBlank(c: char) {
    IsSpace(c) && c != '\n'
  }

  function Last(s: string): char
    requires s != []
  {
    s[|s| - 1]
  }

  function Front(s: string): string
    requires s != []
  {
    s[..|s| - 1]
  }

  lemma Associate<T>(a: seq<T>, b: seq<T>, c: seq<T>)
    ensures a + (b + c) == a + b + c
  {
  }

  lemma Regroup<T>(a: seq<T>, b: seq<T>, c: seq<T>, d: seq<T>)
    ensures a + (b + c) + d == a + b + (c + d)
  {
  }

  /** `s` without the white space at its end. */
  function TrimRight(s: string): (r: string)
    ensures r <= s
    ensures r != [] ==> !IsSpace(Last(r))
    ensures forall k :: |r| <= k < |s| ==> IsSpace(s[k])
  {
    if s != [] && IsSpace(Last(s)) then TrimRight(Front(s)) else s
  }

  /** The two properties of `TrimRight` pin its result down. */
  lemma TrimRightUnique(s: string, r: string)
    requires r <= s
    requires r != [] ==> !IsSpace(Last(r))
    requires forall k :: |r| <= k < |s| ==> IsSpace(s[k])
    ensures r == TrimRight(s)
  {
  }

  /** Every run of white space becomes one ' '. */
  function Collapse(s: string): string {
    if s == [] then []
    else
      var t := Collapse(Front(s));
      if !IsSpace(Last(s)) then t + [Last(s)]
      else if t != [] && Last(t) == ' ' then t
      else t + [' ']
  }

  /** White space occurs only as single ' ' characters. */
  predicate WellSpaced(n: string) {
    && (forall k :: 0 <= k < |n| && IsSpace(n[k]) ==> n[k] == ' ')
    && (forall j, k :: 0 <= j && k == j + 1 < |n| && IsSpace(n[j]) ==> !IsSpace(n[k]))
  }

  /** A name with no leading or trailing white space and single inner spaces. */
  predicate NormalName(n: string) {
    n != [] && !IsSpace(n[0]) && !IsSpace(Last(n)) && WellSpaced(n)
  }

  /** If `s`, apart from trailing white space, ends in a backslash, the text before it. */
  function Joined(s: string): (r: Option<string>)
    ensures r.Some? ==> r.value < s
  {
    var t := TrimRight(s);
    if t != [] && Last(t) == '\\' then Some(Front(t)) else None
  }

  // Collapsing

  lemma {:induction false} CollapseChars(s: string)
    ensures forall c :: c in Collapse(s) ==> c == ' ' || (c in s && !IsSpace(c))
    ensures s != [] && !IsSpace(s[0]) ==> Collapse(s) != [] && Collapse(s)[0] == s[0]
    ensures s != [] && IsSpace(s[0]) ==> Collapse(s) != [] && Collapse(s)[0] == ' '
  {
    if s != [] {
      CollapseChars(Front(s));
    }
  }

  lemma {:induction false} CollapseWellSpaced(s: string)
    ensures WellSpaced(Collapse(s))
  {
    if s != [] {
      CollapseWellSpaced(Front(s));
    }
  }

  /** Well-spaced text ends in at most one space. */
  lemma WellSpacedEnd(t: string)
    requires WellSpaced(t)
    ensures TrimRight(t) == if t != [] && Last(t) == ' ' then Front(t) else t
  {
  }

  lemma CollapseStep(s: string, c: char)
    ensures Collapse(s + [c]) == if IsSpace(c) then TrimRight(Collapse(s)) + [' '] else Collapse(s) + [c]
  {
    assert Front(s + [c]) == s;
    CollapseWellSpaced(s);
    WellSpacedEnd(Collapse(s));
  }

  /** Collapsing after appending one character, in the form the scanner computes it. */
  lemma CollapseSnoc(s: string, c: char)
    ensures !IsSpace(c) ==> Collapse(s + [c]) == Collapse(s) + [c]
    ensures IsSpace(c) ==> Collapse(s + [c]) == TrimRight(Collapse(s)) + [' ']
    ensures IsSpace(c) ==> TrimRight(Collapse(s + [c])) == TrimRight(Collapse(s))
    ensures !IsSpace(c) ==> TrimRight(Collapse(s + [c])) == Collapse(s) + [c]
  {
    CollapseStep(s, c);
    if IsSpace(c) {
      var t := TrimRight(Collapse(s));
      TrimRightUnique(t + [' '], t);
    }
  }

  lemma {:induction false} CollapseBlanks(s: string, b: string)
    requires s != [] && IsSpace(Last(s))
    requires forall c :: c in b ==> IsSpace(c)
    ensures Collapse(s + b) == Collapse(s)
  {
    if b == [] {
      assert s + b == s;
    } else {
      assert forall c :: c in Front(b) ==> c in b;
      assert Last(b) in b;
      CollapseBlanks(s, Front(b));
      assert Front(s + b) == s + Front(b);
      assert Last(Collapse(s)) == ' ';
    }
  }

  /** Trimming and collapsing commute. */
  lemma {:induction false} CollapseTrim(s: string)
    ensures TrimRight(Collapse(s)) == Collapse(TrimRight(s))
  {
    if s != [] {
      assert s == Front(s) + [Last(s)];
      CollapseSnoc(Front(s), Last(s));
      if IsSpace(Last(s)) {
        CollapseTrim(Front(s));
        assert TrimRight(s) == TrimRight(Front(s));
      } else {
        assert TrimRight(s) == s;
      }
    }
  }

  /** A continuation is found in the collapsed text exactly where it is in the raw text. */
  lemma CollapseJoined(s: string)
    ensures Joined(s).None? <==> Joined(Collapse(s)).None?
    ensures Joined(s).Some? ==> Joined(Collapse(s)) == Some(Collapse(Joined(s).value))
  {
    CollapseTrim(s);
    var t := TrimRight(s);
    if t != [] {
      CollapseSnoc(Front(t), Last(t));
      assert Front(t) + [Last(t)] == t;
    }
  }

  /** Trimmed, collapsed text is a normal name exactly when the raw text starts with a non-space. */
  lemma CollapseNormal(s: string)
    ensures NormalName(TrimRight(Collapse(s))) <==> s != [] && !IsSpace(s[0])
    ensures NormalName(TrimRight(Collapse(s))) ==> TrimRight(Collapse(s))[0] == s[0]
    ensures TrimRight(Collapse(s)) == [] <==> TrimRight(s) == []
    ensures forall c :: c in TrimRight(Collapse(s)) ==> c == ' ' || c in s
  {
    CollapseChars(s);
    CollapseWellSpaced(s);
    CollapseTrim(s);
    var u := TrimRight(s);
    if u != [] {
      CollapseChars(u);
    }
    var t := Collapse(s);
    if s != [] && !IsSpace(s[0]) {
      assert t[0] == s[0];
    }
  }

  /** A normal name is its own collapsed form. */
  lemma {:induction false} CollapseIdentity(n: string)
    requires WellSpaced(n)
    ensures Collapse(n) == n
  {
    if n != [] {
      CollapseIdentity(Front(n));
    }
  }

  /** Text that ends in a fence character is joined only within what follows the fence. */
  lemma JoinedFence(p: string, s: string)
    requires p != [] && !IsSpace(Last(p)) && Last(p) != '\\'
    ensures Joined(p + s) == (match Joined(s) case None => None case Some(a) => Some(p + a))
  {
    TrimRightUnique(p + s, p + TrimRight(s));
    var t := TrimRight(s);
    if t != [] {
      assert Front(p + t) == p + Front(t);
    }
  }
}
