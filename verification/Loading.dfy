/** Reading a configuration file into the engine, and writing a service back in the same grammar. */
module Loading {
  import opened ConfSpec
  import opened ConfRoundTrip
  import opened LoadParm
  import Scanner
  import Config

  // Callbacks

  /** do_section or do_parameter, whichever the scanner calls. */
  function Apply(t: Table, st: State, e: Event): (r: (State, bool))
    requires st.current < |st.services|
    ensures r.0.current < |r.0.services|
  {
    match e
    case Section(name) => DoSection(t, st, name)
    case Param(name, value) => DoLine(t, st, name, value)
  }

  /** The callbacks in order, up to and including the first one that is refused. */
  function ApplyAll(t: Table, st: State, es: seq<Event>): (r: (State, bool))
    requires st.current < |st.services|
    ensures r.0.current < |r.0.services|
  {
    if es == [] then (st, true)
    else
      var k := |es| - 1;
      var (st1, ok) := ApplyAll(t, st, es[..k]);
      if ok then Apply(t, st1, es[k]) else (st1, false)
  }

  /** What the callbacks answer, starting from state `st`. */
  function Answers(t: Table, st: State): Answer
    requires st.current < |st.services|
  {
    (calls: seq<Event>) => ApplyAll(t, st, calls).1
  }

  /** The reading phase of lp_load: the state after the file, and whether all of it was accepted. */
  function LoadText(t: Table, st: State, text: string): (r: (State, bool))
    requires st.current < |st.services|
    ensures r.0.current < |r.0.services|
  {
    var (ok, calls) := Parse(text, Answers(t, st));
    (ApplyAll(t, st, calls).0, ok)
  }

  /** The last section of a file that was accepted is checked like those before it. */
  function Finish(loaded: (State, bool)): (State, bool)
    requires loaded.0.current < |loaded.0.services|
  {
    var (st, ok) := loaded;
    if ok && st.current >= 0 then ServiceOk(st, st.current) else (st, ok)
  }

  /** lp_load up to the end of the last section, on the scanner and the engine themselves. */
  method LpLoad(engine: Config.Engine, builtin: seq<(string, string)>, text: string) returns (ok: bool)
    modifies engine
    ensures (engine.View(), ok) ==
            Finish(LoadText(engine.table, ResetAll(engine.table, old(engine.View()), builtin), text))
  {
    engine.LpReset(builtin);
    var st := State(engine.locked, engine.defaults, engine.services, engine.current, engine.inGlobal, engine.opts);
    var file := new Scanner.ConfFile(text);
    var calls;
    ok, calls := file.ParseFile(Answers(engine.table, st));
    AcceptedPrefix(engine.table, st, text);
    for i := 0 to |calls|
      invariant engine.View() == ApplyAll(engine.table, st, calls[..i]).0
      invariant engine.current < |engine.services|
    {
      assert calls[..i + 1][..i] == calls[..i];
      var accepted;
      match calls[i]
      case Section(name) => accepted := engine.LpDoSection(name);
      case Param(name, value) =>
        accepted := engine.LpDoParameter(if engine.inGlobal then -2 else engine.current, name, value);
    }
    assert calls[..|calls|] == calls;
    if ok && engine.current >= 0 {
      ok := engine.LpServiceOk(engine.current);
    }
  }

  /** Parse stops at the first refusal, so all calls before the last were accepted. */
  lemma AcceptedPrefix(t: Table, st: State, text: string)
    requires st.current < |st.services|
    ensures var (ok, calls) := Parse(text, Answers(t, st));
            forall k :: 0 <= k < |calls| ==> ApplyAll(t, st, calls[..k]).1
  {
    StopsAtRefusal(SkipBlank(text), [], Answers(t, st));
    var calls := Parse(text, Answers(t, st)).1;
    forall k | 0 <= k < |calls|
      ensures ApplyAll(t, st, calls[..k]).1
    {
      if k > 0 {
        assert Answers(t, st)(calls[..k]);
      }
    }
  }
}
