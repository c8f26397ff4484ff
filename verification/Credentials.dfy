/**
 Client credentials (samba/auth/credentials/credentials.c): a user name and a password, each with
 the level at which it was obtained, and callbacks that may be asked for them.

 A callback is handed the credentials and may call back into them.  So a getter carries what the
 callback does if it is asked this time: the calls it makes meanwhile, to any depth, and its answer.
 A machine account that is pending is filled in by the first getter; `fill` is what that then does.
 The last four fields are history: how often the user name callback and the password callback ran,
 how often `WrongPassword` armed the latter again, and whether `WrongPassword` has answered False.
 */
module Credentials {
  import opened Text
  import opened Octets

  type Level = x: nat | x <= 5
  const UNINITIALISED: Level := 0
  const GUESS_ENV: Level := 1
  const CALLBACK: Level := 2
  const GUESS_FILE: Level := 3
  const CALLBACK_RESULT: Level := 4
  const SPECIFIED: Level := 5

  datatype Call =
    | SetUsername(name: Option<string>, level: Level)
    | SetUsernameCallback
    | GetUsername(fill: seq<Call>, inside: seq<Call>, answer: Option<string>)
    | SetPassword(password: Option<string>, level: Level)
    | SetNtHash(hash: Bytes, level: Level)
    | SetPasswordCallback
    | GetPassword(fill: seq<Call>, inside: seq<Call>, answer: Option<string>)
    | WrongPassword
    | SetPending

  datatype State = State(
    username: Option<string>, usernameLevel: Level,
    password: Option<string>, ntHash: Option<Bytes>, passwordLevel: Level,
    tries: int, running: bool, pending: bool,
    inquiries: nat, prompts: nat, rearmed: nat, refused: bool)

  const START := State(None, UNINITIALISED, None, None, UNINITIALISED, 3, false, false, 0, 0, 0, false)

  function Do(s: State, call: Call): State
    decreases call
  {
    match call
    case SetUsername(name, level) =>
      if level >= s.usernameLevel then s.(username := name, usernameLevel := level) else s
    case SetUsernameCallback =>
      if s.usernameLevel < CALLBACK then s.(usernameLevel := CALLBACK) else s
    case GetUsername(fill, inside, answer) =>
      var f := FilledIn(s, fill);
      if f.usernameLevel == CALLBACK && !f.running then
        DoAll(f.(running := true, inquiries := f.inquiries + 1), inside)
        .(username := answer, running := false, usernameLevel := SPECIFIED)
      else f
    case SetPassword(password, level) =>
      if level >= s.passwordLevel then s.(password := password, passwordLevel := level, ntHash := None) else s
    case SetNtHash(hash, level) =>
      if level >= s.passwordLevel then s.(password := None, passwordLevel := level, ntHash := Some(hash)) else s
    case SetPasswordCallback =>
      if s.passwordLevel < CALLBACK then s.(passwordLevel := CALLBACK) else s
    case GetPassword(fill, inside, answer) =>
      var f := FilledIn(s, fill);
      if f.passwordLevel == CALLBACK && !f.running then
        DoAll(f.(running := true, prompts := f.prompts + 1), inside)
        .(password := answer, running := false, passwordLevel := CALLBACK_RESULT)
      else f
    case WrongPassword =>
      if s.passwordLevel != CALLBACK_RESULT then s.(refused := true)
      else s.(passwordLevel := CALLBACK, tries := s.tries - 1, rearmed := s.rearmed + 1,
              refused := s.refused || s.tries <= 1)
    case SetPending => s.(pending := true)
  }

  /** The state in which a getter looks: a pending machine account is filled in, once. */
  function FilledIn(s: State, fill: seq<Call>): State
    decreases fill, 1
  {
    if s.pending then DoAll(s.(pending := false), fill) else s
  }

  function DoAll(s: State, calls: seq<Call>): State
    decreases calls, 0
  {
    if calls == [] then s else DoAll(Do(s, calls[0]), calls[1..])
  }

  lemma {:induction false} DoAllSnoc(s: State, calls: seq<Call>, call: Call)
    ensures DoAll(s, calls + [call]) == Do(DoAll(s, calls), call)
    decreases |calls|
  {
    var all := calls + [call];
    if calls == [] {
      assert all[1..] == [];
    } else {
      assert all[1..] == calls[1..] + [call];
      DoAllSnoc(Do(s, calls[0]), calls[1..], call);
    }
  }

  // ---- Callbacks do not nest, and how often they run

  /** While a callback runs, nothing it does, at any depth, starts another one; and none is left running. */
  ghost predicate Calm(s: State, t: State) {
    && t.running == s.running
    && (s.running ==> t.prompts == s.prompts && t.inquiries == s.inquiries)
  }

  lemma {:induction false} Quiet(s: State, call: Call)
    ensures Calm(s, Do(s, call))
    decreases call
  {
    match call
    case GetUsername(fill, _, _) => QuietAll(s.(pending := false), fill);
    case GetPassword(fill, _, _) => QuietAll(s.(pending := false), fill);
    case _ =>
  }

  lemma {:induction false} QuietAll(s: State, calls: seq<Call>)
    ensures Calm(s, DoAll(s, calls))
    decreases calls
  {
    if calls != [] {
      Quiet(s, calls[0]);
      QuietAll(Do(s, calls[0]), calls[1..]);
    }
  }

  predicate Tally(s: State) {
    s.tries == 3 - s.rearmed && (s.rearmed >= 3 ==> s.refused)
  }

  /** A prompt is either the first or was paid for by a re-arming; one more is owed while armed. */
  predicate Budget(s: State) {
    && Tally(s)
    && s.prompts + (if s.passwordLevel <= CALLBACK then 1 else 0) <= 1 + s.rearmed
  }

  lemma {:induction false} TallyKept(s: State, call: Call)
    requires Tally(s)
    ensures Tally(Do(s, call)) && Do(s, call).rearmed >= s.rearmed
    decreases call
  {
    match call
    case GetUsername(fill, inside, _) =>
      TallyKeptAll(s.(pending := false), fill);
      var f := FilledIn(s, fill);
      TallyKeptAll(f.(running := true, inquiries := f.inquiries + 1), inside);
    case GetPassword(fill, inside, _) =>
      TallyKeptAll(s.(pending := false), fill);
      var f := FilledIn(s, fill);
      TallyKeptAll(f.(running := true, prompts := f.prompts + 1), inside);
    case _ =>
  }

  lemma {:induction false} TallyKeptAll(s: State, calls: seq<Call>)
    requires Tally(s)
    ensures Tally(DoAll(s, calls)) && DoAll(s, calls).rearmed >= s.rearmed
    decreases calls
  {
    if calls != [] {
      TallyKept(s, calls[0]);
      TallyKeptAll(Do(s, calls[0]), calls[1..]);
    }
  }

  lemma {:induction false} BudgetKept(s: State, call: Call)
    requires Budget(s)
    ensures Budget(Do(s, call))
    decreases call
  {
    match call
    case GetUsername(fill, inside, _) =>
      BudgetKeptAll(s.(pending := false), fill);
      var f := FilledIn(s, fill);
      BudgetKeptAll(f.(running := true, inquiries := f.inquiries + 1), inside);
    case GetPassword(fill, inside, _) =>
      BudgetKeptAll(s.(pending := false), fill);
      var f := FilledIn(s, fill);
      var asking := f.(running := true, prompts := f.prompts + 1);
      TallyKeptAll(asking, inside);
      QuietAll(asking, inside);
    case _ =>
  }

  lemma {:induction false} BudgetKeptAll(s: State, calls: seq<Call>)
    requires Budget(s)
    ensures Budget(DoAll(s, calls))
    decreases calls
  {
    if calls != [] {
      BudgetKept(s, calls[0]);
      BudgetKeptAll(Do(s, calls[0]), calls[1..]);
    }
  }

  /**
   Over any run, the password callback runs at most once more than it is armed again, and at most
   three times for as long as `WrongPassword` has not answered False.
   */
  lemma PromptBudget(calls: seq<Call>)
    ensures var s := DoAll(START, calls);
            && !s.running
            && s.prompts <= 1 + s.rearmed
            && (!s.refused ==> s.prompts <= 3)
  {
    BudgetKeptAll(START, calls);
    QuietAll(START, calls);
  }

  /** `n` prompts, each answer but the last found wrong. */
  function Rounds(n: nat): seq<Call> {
    if n == 0 then [SetPasswordCallback, GetPassword([], [], None)]
    else Rounds(n - 1) + [WrongPassword] + [GetPassword([], [], None)]
  }

  /**
   The bound of three is reached, and it rests on the caller alone: one that goes on after False is
   asked as often as it likes.
   */
  lemma {:induction false} RoundsRun(n: nat)
    ensures var s := DoAll(START, Rounds(n));
            && s.prompts == n + 1 && s.rearmed == n
            && s.passwordLevel == CALLBACK_RESULT && !s.running && s.tries == 3 - n
            && (s.refused <==> n >= 3)
  {
    if n == 0 {
      var first := Do(START, SetPasswordCallback);
      var rest := Rounds(0)[1..];
      assert rest[0] == GetPassword([], [], None) && rest[1..] == [];
      assert DoAll(START, Rounds(0)) == DoAll(first, rest);
      assert DoAll(first, rest) == Do(first, GetPassword([], [], None));
    } else {
      RoundsRun(n - 1);
      DoAllSnoc(START, Rounds(n - 1), WrongPassword);
      DoAllSnoc(START, Rounds(n - 1) + [WrongPassword], GetPassword([], [], None));
    }
  }

  // ---- Levels

  /** Whether the call, or anything a callback does during it, reports a wrong password. */
  predicate Complains(call: Call)
    decreases call
  {
    match call
    case WrongPassword => true
    case GetUsername(fill, inside, _) => AnyComplains(fill) || AnyComplains(inside)
    case GetPassword(fill, inside, _) => AnyComplains(fill) || AnyComplains(inside)
    case _ => false
  }

  predicate AnyComplains(calls: seq<Call>)
    decreases calls
  {
    exists i :: 0 <= i < |calls| && Complains(calls[i])
  }

  /** Without a complaint no level is lower after a call than it was before it, whatever the callbacks
      do.  A level reached during the call can fall again: see `GetterLowersExactly`. */
  lemma {:induction false} LevelsRise(s: State, call: Call)
    requires !Complains(call)
    ensures Do(s, call).usernameLevel >= s.usernameLevel && Do(s, call).passwordLevel >= s.passwordLevel
    decreases call
  {
    match call
    case GetUsername(fill, inside, _) =>
      LevelsRiseAll(s.(pending := false), fill);
      var f := FilledIn(s, fill);
      LevelsRiseAll(f.(running := true, inquiries := f.inquiries + 1), inside);
    case GetPassword(fill, inside, _) =>
      LevelsRiseAll(s.(pending := false), fill);
      var f := FilledIn(s, fill);
      LevelsRiseAll(f.(running := true, prompts := f.prompts + 1), inside);
    case _ =>
  }

  lemma {:induction false} LevelsRiseAll(s: State, calls: seq<Call>)
    requires !AnyComplains(calls)
    ensures DoAll(s, calls).usernameLevel >= s.usernameLevel && DoAll(s, calls).passwordLevel >= s.passwordLevel
    decreases calls
  {
    if calls != [] {
      LevelsRise(s, calls[0]);
      LevelsRiseAll(Do(s, calls[0]), calls[1..]);
    }
  }

  /** An answer from the callback is what the getter leaves behind, even over what the callback itself set. */
  lemma AnswerStands(s: State, fill: seq<Call>, inside: seq<Call>, answer: Option<string>)
    requires var f := FilledIn(s, fill); f.passwordLevel == CALLBACK && !f.running
    ensures var f, t := FilledIn(s, fill), Do(s, GetPassword(fill, inside, answer));
            && t.password == answer && t.passwordLevel == CALLBACK_RESULT && t.prompts == f.prompts + 1
  {
    var f := FilledIn(s, fill);
    QuietAll(f.(running := true, prompts := f.prompts + 1), inside);
  }

  // ---- What a callback sets as SPECIFIED

  /** Whether a machine account is pending after calls made while a callback runs. */
  predicate Leaves(pending: bool, call: Call)
    decreases call
  {
    match call
    case GetUsername(fill, _, _) => pending && LeaveAll(false, fill)
    case GetPassword(fill, _, _) => pending && LeaveAll(false, fill)
    case SetPending => true
    case _ => pending
  }

  predicate LeaveAll(pending: bool, calls: seq<Call>)
    decreases calls
  {
    if calls == [] then pending else LeaveAll(Leaves(pending, calls[0]), calls[1..])
  }

  /** Whether such a call sets the password, or its hash, as SPECIFIED: itself, or by filling in the
      machine account.  What its own callback would do is not performed. */
  predicate Specifies(pending: bool, call: Call)
    decreases call
  {
    match call
    case SetPassword(_, level) => level == SPECIFIED
    case SetNtHash(_, level) => level == SPECIFIED
    case GetUsername(fill, _, _) => pending && AnySpecifies(false, fill)
    case GetPassword(fill, _, _) => pending && AnySpecifies(false, fill)
    case _ => false
  }

  predicate AnySpecifies(pending: bool, calls: seq<Call>)
    decreases calls
  {
    calls != [] && (Specifies(pending, calls[0]) || AnySpecifies(Leaves(pending, calls[0]), calls[1..]))
  }

  /** While a callback runs, the password is SPECIFIED afterwards if and only if it was so before or a
      call performed has made it so: nothing, not even a complaint, takes it back. */
  lemma {:induction false} SpecifiedExactly(s: State, call: Call)
    requires s.running
    ensures var t := Do(s, call);
            && t.running && t.pending == Leaves(s.pending, call)
            && (t.passwordLevel == SPECIFIED <==> s.passwordLevel == SPECIFIED || Specifies(s.pending, call))
    decreases call
  {
    match call
    case GetUsername(fill, _, _) => AnySpecifiedExactly(s.(pending := false), fill);
    case GetPassword(fill, _, _) => AnySpecifiedExactly(s.(pending := false), fill);
    case _ =>
  }

  lemma {:induction false} AnySpecifiedExactly(s: State, calls: seq<Call>)
    requires s.running
    ensures var t := DoAll(s, calls);
            && t.running && t.pending == LeaveAll(s.pending, calls)
            && (t.passwordLevel == SPECIFIED <==> s.passwordLevel == SPECIFIED || AnySpecifies(s.pending, calls))
    decreases calls
  {
    if calls != [] {
      SpecifiedExactly(s, calls[0]);
      AnySpecifiedExactly(Do(s, calls[0]), calls[1..]);
    }
  }

  /** The password getter ends below the level reached while its callback ran if and only if the callback
      performed a call that sets the password or its hash as SPECIFIED. */
  lemma GetterLowersExactly(s: State, fill: seq<Call>, inside: seq<Call>, answer: Option<string>)
    requires var f := FilledIn(s, fill); f.passwordLevel == CALLBACK && !f.running
    ensures var f := FilledIn(s, fill);
            var reached := DoAll(f.(running := true, prompts := f.prompts + 1), inside);
            Do(s, GetPassword(fill, inside, answer)).passwordLevel < reached.passwordLevel <==>
            AnySpecifies(f.pending, inside)
  {
    var f := FilledIn(s, fill);
    AnySpecifiedExactly(f.(running := true, prompts := f.prompts + 1), inside);
  }

  // ---- The last setter of the highest level

  predicate Setter(call: Call) {
    !call.GetUsername? && !call.GetPassword? && !call.WrongPassword?
  }

  datatype Field = Username | Password

  predicate Bids(f: Field, call: Call) {
    match f
    case Username => call.SetUsername? || call.SetUsernameCallback?
    case Password => call.SetPassword? || call.SetNtHash? || call.SetPasswordCallback?
  }

  predicate Defers(call: Call) {
    call.SetUsernameCallback? || call.SetPasswordCallback?
  }

  function BidLevel(f: Field, call: Call): Level
    requires Bids(f, call)
  {
    if Defers(call) then CALLBACK else call.level
  }

  function LevelOf(f: Field, s: State): Level {
    if f.Username? then s.usernameLevel else s.passwordLevel
  }

  /**
   The call that decides a field: none is of a higher level, and of its own level it is the last,
   except that a callback never displaces what already has that level.
   */
  ghost predicate Wins(f: Field, calls: seq<Call>, w: nat) {
    && w < |calls| && Bids(f, calls[w])
    && (forall i :: 0 <= i < |calls| && Bids(f, calls[i]) ==>
          && BidLevel(f, calls[i]) <= BidLevel(f, calls[w])
          && (BidLevel(f, calls[i]) == BidLevel(f, calls[w]) && i > w ==> Defers(calls[i]))
          && (BidLevel(f, calls[i]) == BidLevel(f, calls[w]) && i < w ==> !Defers(calls[w])))
  }

  predicate Shows(f: Field, s: State, call: Call)
    requires Bids(f, call)
  {
    && LevelOf(f, s) == BidLevel(f, call)
    && (call.SetUsername? ==> s.username == call.name)
    && (call.SetPassword? ==> s.password == call.password && s.ntHash == None)
    && (call.SetNtHash? ==> s.password == None && s.ntHash == Some(call.hash))
  }

  lemma SetterStep(f: Field, s: State, call: Call)
    requires Setter(call)
    ensures var t := Do(s, call);
            if Bids(f, call) && (if Defers(call) then LevelOf(f, s) < CALLBACK else call.level >= LevelOf(f, s))
            then Shows(f, t, call)
            else LevelOf(f, t) == LevelOf(f, s) && forall c :: Bids(f, c) && Shows(f, s, c) ==> Shows(f, t, c)
  {
  }

  lemma TakesOver(f: Field, before: seq<Call>, call: Call, w: nat)
    requires (exists i :: 0 <= i < |before| && Bids(f, before[i])) ==> Wins(f, before, w)
    requires Bids(f, call)
    requires Wins(f, before, w) ==>
               BidLevel(f, before[w]) <= BidLevel(f, call) &&
               (Defers(call) ==> BidLevel(f, before[w]) < BidLevel(f, call))
    ensures Wins(f, before + [call], |before|)
  {
  }

  lemma StaysAhead(f: Field, before: seq<Call>, call: Call, w: nat)
    requires Wins(f, before, w)
    requires Bids(f, call) ==>
               BidLevel(f, call) <= BidLevel(f, before[w]) &&
               (BidLevel(f, call) == BidLevel(f, before[w]) ==> Defers(call))
    ensures Wins(f, before + [call], w)
  {
  }

  /** Call `w` decides the field, and the state shows it; without a bid the field is untouched. */
  ghost predicate Standing(f: Field, s: State, calls: seq<Call>, w: nat) {
    if exists i :: 0 <= i < |calls| && Bids(f, calls[i])
    then Wins(f, calls, w) && Shows(f, s, calls[w])
    else LevelOf(f, s) == UNINITIALISED
  }

  lemma StandingNext(f: Field, s: State, before: seq<Call>, call: Call, w: nat) returns (w': nat)
    requires Setter(call) && Standing(f, s, before, w)
    ensures Standing(f, Do(s, call), before + [call], w')
  {
    w' := w;
    SetterStep(f, s, call);
    assert call == (before + [call])[|before|];
    if Bids(f, call) && (if Defers(call) then LevelOf(f, s) < CALLBACK else call.level >= LevelOf(f, s)) {
      TakesOver(f, before, call, w);
      w' := |before|;
    } else if exists i :: 0 <= i < |before| && Bids(f, before[i]) {
      StaysAhead(f, before, call, w);
    }
  }

  lemma {:induction false} WinnerShows(f: Field, calls: seq<Call>) returns (w: nat)
    requires forall i :: 0 <= i < |calls| ==> Setter(calls[i])
    ensures Standing(f, DoAll(START, calls), calls, w)
    decreases |calls|
  {
    w := 0;
    if calls != [] {
      var before, call := calls[..|calls| - 1], calls[|calls| - 1];
      assert calls == before + [call];
      w := WinnerShows(f, before);
      DoAllSnoc(START, before, call);
      w := StandingNext(f, DoAll(START, before), before, call, w);
    }
  }

  lemma OneWinner(f: Field, calls: seq<Call>, w: nat, v: nat)
    requires Wins(f, calls, w) && Wins(f, calls, v)
    ensures w == v
  {
  }

  /** After any sequence of setter calls a field is as the winning call left it. */
  lemma LastOfHighest(f: Field, calls: seq<Call>, w: nat)
    requires forall i :: 0 <= i < |calls| ==> Setter(calls[i])
    requires Wins(f, calls, w)
    ensures Shows(f, DoAll(START, calls), calls[w])
  {
    var v := WinnerShows(f, calls);
    assert Bids(f, calls[w]);
    OneWinner(f, calls, w, v);
  }

  // ---- The object

  class CliCredentials {
    var username: Option<string>
    var usernameLevel: Level
    var password: Option<string>
    var ntHash: Option<Bytes>
    var passwordLevel: Level
    var tries: int
    var running: bool
    var pending: bool
    ghost var inquiries: nat
    ghost var prompts: nat
    ghost var rearmed: nat
    ghost var refused: bool

    ghost function View(): State
      reads this
    {
      State(username, usernameLevel, password, ntHash, passwordLevel, tries, running, pending,
            inquiries, prompts, rearmed, refused)
    }

    constructor ()
      ensures View() == START
    {
      username, usernameLevel := None, UNINITIALISED;
      password, ntHash, passwordLevel := None, None, UNINITIALISED;
      tries, running, pending := 3, false, false;
      inquiries, prompts, rearmed, refused := 0, 0, 0, false;
    }

    method SetUsername(name: Option<string>, level: Level) returns (ok: bool)
      modifies this
      ensures View() == Do(old(View()), Call.SetUsername(name, level))
      ensures ok <==> level >= old(usernameLevel)
    {
      if level >= usernameLevel {
        username, usernameLevel := name, level;
        return true;
      }
      return false;
    }

    method SetUsernameCallback() returns (ok: bool)
      modifies this
      ensures View() == Do(old(View()), Call.SetUsernameCallback)
      ensures ok <==> old(usernameLevel) < CALLBACK
    {
      if usernameLevel < CALLBACK {
        usernameLevel := CALLBACK;
        return true;
      }
      return false;
    }

    /** A machine account that is pending is filled in, once. */
    method FillIn(fill: seq<Call>)
      modifies this
      ensures View() == FilledIn(old(View()), fill)
      decreases fill, 1
    {
      if pending {
        pending := false;
        Perform(fill);
      }
    }

    method SetMachineAccountPending()
      modifies this
      ensures View() == Do(old(View()), SetPending)
    {
      pending := true;
    }

    method GetUsername(fill: seq<Call>, inside: seq<Call>, answer: Option<string>) returns (name: Option<string>)
      modifies this
      ensures View() == Do(old(View()), Call.GetUsername(fill, inside, answer))
      ensures name == username
      decreases Call.GetUsername(fill, inside, answer)
    {
      FillIn(fill);
      if usernameLevel == CALLBACK && !running {
        running := true;
        inquiries := inquiries + 1;
        Perform(inside);
        username := answer;
        running := false;
        usernameLevel := SPECIFIED;
      }
      return username;
    }

    method SetPassword(value: Option<string>, level: Level) returns (ok: bool)
      modifies this
      ensures View() == Do(old(View()), Call.SetPassword(value, level))
      ensures ok <==> level >= old(passwordLevel)
    {
      if level >= passwordLevel {
        password, passwordLevel := value, level;
        ntHash := None;
        return true;
      }
      return false;
    }

    method SetNtHash(hash: Bytes, level: Level) returns (ok: bool)
      modifies this
      ensures View() == Do(old(View()), Call.SetNtHash(hash, level))
      ensures ok <==> level >= old(passwordLevel)
    {
      if level >= passwordLevel {
        var _ := SetPassword(None, level);
        ntHash := Some(hash);
        return true;
      }
      return false;
    }

    method SetPasswordCallback() returns (ok: bool)
      modifies this
      ensures View() == Do(old(View()), Call.SetPasswordCallback)
      ensures ok <==> old(passwordLevel) < CALLBACK
    {
      if passwordLevel < CALLBACK {
        passwordLevel := CALLBACK;
        return true;
      }
      return false;
    }

    method GetPassword(fill: seq<Call>, inside: seq<Call>, answer: Option<string>) returns (value: Option<string>)
      modifies this
      ensures View() == Do(old(View()), Call.GetPassword(fill, inside, answer))
      ensures value == password
      decreases Call.GetPassword(fill, inside, answer)
    {
      FillIn(fill);
      if passwordLevel == CALLBACK && !running {
        running := true;
        prompts := prompts + 1;
        Perform(inside);
        password := answer;
        running := false;
        passwordLevel := CALLBACK_RESULT;
      }
      return password;
    }

    method WrongPassword() returns (again: bool)
      modifies this
      ensures View() == Do(old(View()), Call.WrongPassword)
      ensures refused == (old(refused) || !again)
    {
      if passwordLevel != CALLBACK_RESULT {
        refused := true;
        return false;
      }
      passwordLevel := CALLBACK;
      tries := tries - 1;
      rearmed := rearmed + 1;
      refused := refused || tries <= 0;
      return tries > 0;
    }

    /** What a callback, or filling in, does with the credentials. */
    method Perform(calls: seq<Call>)
      modifies this
      ensures View() == DoAll(old(View()), calls)
      decreases calls, 0
    {
      if calls == [] {
        return;
      }
      match calls[0] {
        case SetUsername(name, level) => var _ := SetUsername(name, level);
        case SetUsernameCallback => var _ := SetUsernameCallback();
        case GetUsername(fill, inside, answer) => var _ := GetUsername(fill, inside, answer);
        case SetPassword(value, level) => var _ := SetPassword(value, level);
        case SetNtHash(hash, level) => var _ := SetNtHash(hash, level);
        case SetPasswordCallback => var _ := SetPasswordCallback();
        case GetPassword(fill, inside, answer) => var _ := GetPassword(fill, inside, answer);
        case WrongPassword => var _ := WrongPassword();
        case SetPending => SetMachineAccountPending();
      }
      Perform(calls[1..]);
    }
  }
}
