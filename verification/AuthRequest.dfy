/**
 Password checking as a request protocol (samba/auth/auth.c).

 A context holds a list of methods, the challenge, the requests sent so far and the events still to
 be delivered.  What a method would answer is part of the step that asks it.  Events are delivered
 in any order.  A callback is always the last thing its caller does, so what the callback goes on to
 do is simply a later step of the run.
 */
module AuthRequest {
  import opened Text
  import opened Octets

  datatype Status = Ok | NotImplemented | NoSuchUser | NoMemory | InternalError | Other(code: int)

  type Nonce = b: Bytes | |b| == 8 witness [0, 0, 0, 0, 0, 0, 0, 0]

  datatype Offer = Offer(status: Status, data: Bytes, name: string)

  datatype Challenge = Challenge(data: Bytes, setBy: Option<string>, mayBeModified: bool)

  /** A request with everything its surroundings would answer, method by method. */
  datatype Ask = Ask(mapped: bool, mapping: Status, offers: seq<Offer>, random: Nonce,
                     want: seq<Status>, check: seq<Status>, scheduled: bool)

  /** `gave` is what fetching the challenge answered. */
  datatype Request = Request(ask: Ask, gave: Status, chosen: Option<nat>, status: Status)

  datatype Fired = Fired(id: nat, status: Status)

  datatype State = State(challenge: Challenge, requests: seq<Request>, queue: seq<nat>, fired: seq<Fired>)

  const START := State(Challenge([], None, false), [], [], [])

  datatype Step =
    | SetChallenge(chal: Nonce, who: string)
    | GetChallenge(offers: seq<Offer>, random: Nonce)
    | Send(ask: Ask)
    | Deliver(k: nat)

  /** The first that has something to say. */
  function First(answers: seq<Status>): (k: nat)
    ensures k <= |answers|
    ensures forall j :: 0 <= j < k ==> answers[j] == NotImplemented
    ensures k < |answers| ==> answers[k] != NotImplemented
  {
    if answers == [] || answers[0] != NotImplemented then 0 else 1 + First(answers[1..])
  }

  lemma FirstIs(answers: seq<Status>, k: nat)
    requires k <= |answers| && (forall j :: 0 <= j < k ==> answers[j] == NotImplemented)
    requires k < |answers| ==> answers[k] != NotImplemented
    ensures First(answers) == k
  {
  }

  function Statuses(offers: seq<Offer>): (s: seq<Status>)
    ensures |s| == |offers| && forall i :: 0 <= i < |s| ==> s[i] == offers[i].status
  {
    seq(|offers|, i requires 0 <= i < |offers| => offers[i].status)
  }

  /** The challenge stands once there is one; else the first method that has one, else chance. */
  function Fetch(c: Challenge, offers: seq<Offer>, random: Nonce): (Status, Challenge) {
    if c.data != [] then (Ok, c)
    else
      var k := First(Statuses(offers));
      if k < |offers| then
        if offers[k].status != Ok then (offers[k].status, c)
        else if |offers[k].data| != 8 then (InternalError, c)
        else (Ok, c.(data := offers[k].data, setBy := Some(offers[k].name)))
      else if c.setBy.None? then (Ok, Challenge(random, Some("random"), true))
      else (Ok, c)
  }

  /** What the request's callback must be told. */
  function Verdict(ask: Ask, gave: Status): Status
    requires |ask.want| == |ask.check|
  {
    if !ask.mapped && ask.mapping != Ok then ask.mapping
    else if gave != Ok then gave
    else
      var k := First(ask.want);
      if k == |ask.want| then NoSuchUser
      else if ask.want[k] != Ok then ask.want[k]
      else if !ask.scheduled then NoMemory
      else ask.check[k]
  }

  predicate Waits(ask: Ask, gave: Status) {
    && (ask.mapped || ask.mapping == Ok) && gave == Ok && ask.scheduled
    && First(ask.want) < |ask.want| && ask.want[First(ask.want)] == Ok
  }

  function SendTo(s: State, ask: Ask): State
    requires |ask.want| == |ask.check|
  {
    var unmapped := !ask.mapped && ask.mapping != Ok;
    var (gave, challenge) := if unmapped then (Ok, s.challenge) else Fetch(s.challenge, ask.offers, ask.random);
    var k := First(ask.want);
    var asked := !unmapped && gave == Ok && k < |ask.want|;
    var chosen := if asked then Some(k) else None;
    var id := |s.requests|;
    if Waits(ask, gave) then
      State(challenge, s.requests + [Request(ask, gave, chosen, Ok)], s.queue + [id], s.fired)
    else
      var status := Verdict(ask, gave);
      State(challenge, s.requests + [Request(ask, gave, chosen, status)], s.queue, s.fired + [Fired(id, status)])
  }

  predicate Enabled(s: State, step: Step) {
    match step
    case Send(ask) => |ask.want| == |ask.check|
    case Deliver(k) => k < |s.queue|
    case _ => true
  }

  /** What an event finds when it is delivered. */
  ghost predicate Ready(s: State) {
    forall q :: q in s.queue ==>
      && q < |s.requests|
      && var r := s.requests[q];
      && |r.ask.want| == |r.ask.check| && Waits(r.ask, r.gave) && r.chosen == Some(First(r.ask.want))
  }

  ghost function Do(s: State, step: Step): State
    requires Ready(s) && Enabled(s, step)
  {
    match step
    case SetChallenge(chal, who) => s.(challenge := s.challenge.(data := chal, setBy := Some(who)))
    case GetChallenge(offers, random) => s.(challenge := Fetch(s.challenge, offers, random).1)
    case Send(ask) => SendTo(s, ask)
    case Deliver(k) =>
      var id := s.queue[k];
      assert id in s.queue;
      var status := s.requests[id].ask.check[s.requests[id].chosen.value];
      State(s.challenge, s.requests[id := s.requests[id].(status := status)],
            s.queue[..k] + s.queue[k + 1..], s.fired + [Fired(id, status)])
  }

  // ---- Every run

  function Ids(fired: seq<Fired>): (ids: seq<nat>)
    ensures |ids| == |fired| && forall i :: 0 <= i < |ids| ==> ids[i] == fired[i].id
  {
    seq(|fired|, i requires 0 <= i < |fired| => fired[i].id)
  }

  function Upto(n: nat): (ids: seq<nat>) {
    if n == 0 then [] else Upto(n - 1) + [n - 1]
  }

  /** Fired and pending together are the requests sent, each once. */
  ghost predicate Conserved(s: State) {
    multiset(Ids(s.fired)) + multiset(s.queue) == multiset(Upto(|s.requests|))
  }

  ghost predicate Told(s: State) {
    forall e :: e in s.fired ==>
      && e.id < |s.requests|
      && var r := s.requests[e.id];
      && |r.ask.want| == |r.ask.check| && e.status == Verdict(r.ask, r.gave) && r.status == e.status
  }

  ghost predicate Inv(s: State) {
    && Ready(s) && Conserved(s) && Told(s)
    && (s.challenge.data == [] || |s.challenge.data| == 8)
    && (s.challenge.data == [] <==> s.challenge.setBy.None?)
  }

  lemma {:induction false} UptoCount(n: nat, id: nat)
    ensures multiset(Upto(n))[id] == if id < n then 1 else 0
  {
    if n > 0 {
      UptoCount(n - 1, id);
    }
  }

  lemma IdsNext(fired: seq<Fired>, e: Fired)
    ensures Ids(fired + [e]) == Ids(fired) + [e.id]
  {
  }

  lemma Removed(queue: seq<nat>, k: nat)
    requires k < |queue|
    ensures multiset(queue) == multiset(queue[..k] + queue[k + 1..]) + multiset{queue[k]}
  {
    assert queue == queue[..k] + [queue[k]] + queue[k + 1..];
  }

  lemma SendConserves(s: State, ask: Ask)
    requires Conserved(s) && |ask.want| == |ask.check|
    ensures Conserved(SendTo(s, ask))
  {
    var id := |s.requests|;
    var t := SendTo(s, ask);
    assert Upto(|t.requests|) == Upto(id) + [id];
    if t.queue == s.queue {
      IdsNext(s.fired, t.fired[|s.fired|]);
    }
  }

  lemma DeliverConserves(s: State, k: nat)
    requires Ready(s) && Conserved(s) && k < |s.queue|
    ensures Conserved(Do(s, Deliver(k)))
  {
    var t := Do(s, Deliver(k));
    Removed(s.queue, k);
    IdsNext(s.fired, t.fired[|s.fired|]);
  }

  /** A request that is delivered now has not fired before, and will not be delivered again. */
  lemma Apart(s: State, k: nat)
    requires Conserved(s) && k < |s.queue|
    ensures forall e :: e in s.fired ==> e.id != s.queue[k]
    ensures s.queue[k] !in s.queue[..k] + s.queue[k + 1..]
  {
    var id := s.queue[k];
    UptoCount(|s.requests|, id);
    Removed(s.queue, k);
    forall e | e in s.fired
      ensures e.id != id
    {
      var i :| 0 <= i < |s.fired| && s.fired[i] == e;
      assert Ids(s.fired)[i] == e.id;
      assert e.id in multiset(Ids(s.fired));
    }
  }

  lemma SendKeeps(s: State, ask: Ask)
    requires Inv(s) && |ask.want| == |ask.check|
    ensures Inv(SendTo(s, ask))
  {
    SendConserves(s, ask);
  }

  lemma DeliverReady(s: State, k: nat)
    requires Ready(s) && Conserved(s) && k < |s.queue|
    ensures Ready(Do(s, Deliver(k)))
  {
    Apart(s, k);
    var t := Do(s, Deliver(k));
    forall q | q in t.queue
      ensures q in s.queue && q != s.queue[k]
    {
      var i :| 0 <= i < |t.queue| && t.queue[i] == q;
      assert q == s.queue[if i < k then i else i + 1];
    }
  }

  lemma DeliverTells(s: State, k: nat)
    requires Ready(s) && Conserved(s) && Told(s) && k < |s.queue|
    ensures Told(Do(s, Deliver(k)))
  {
  }

  lemma DeliverKeeps(s: State, k: nat)
    requires Inv(s) && k < |s.queue|
    ensures Inv(Do(s, Deliver(k)))
  {
    DeliverConserves(s, k);
    DeliverReady(s, k);
    DeliverTells(s, k);
  }

  lemma StepKeeps(s: State, step: Step)
    requires Inv(s) && Enabled(s, step)
    ensures Inv(Do(s, step))
  {
    match step
    case Send(ask) => SendKeeps(s, ask);
    case Deliver(k) => DeliverKeeps(s, k);
    case _ =>
  }

  /** `t` is reached from `s` by the steps, in any interleaving. */
  ghost predicate Reaches(s: State, steps: seq<Step>, t: State)
    decreases |steps|
  {
    if steps == [] then s == t
    else Ready(s) && Enabled(s, steps[0]) && Reaches(Do(s, steps[0]), steps[1..], t)
  }

  lemma {:induction false} RunKeeps(s: State, steps: seq<Step>, t: State)
    requires Inv(s) && Reaches(s, steps, t)
    ensures Inv(t)
    decreases |steps|
  {
    if steps != [] {
      StepKeeps(s, steps[0]);
      RunKeeps(Do(s, steps[0]), steps[1..], t);
    }
  }

  /**
   However sends and deliveries interleave, every request sent has had its callback called exactly
   once, or is pending exactly once and has not been called; and what the callback was told is the
   verdict of the first method that had something to say.
   */
  lemma ExactlyOnce(steps: seq<Step>, t: State, id: nat)
    requires Reaches(START, steps, t) && id < |t.requests|
    ensures multiset(Ids(t.fired))[id] + multiset(t.queue)[id] == 1
    ensures t.queue == [] ==> multiset(Ids(t.fired))[id] == 1
    ensures forall e :: e in t.fired && e.id == id ==>
              && |t.requests[id].ask.want| == |t.requests[id].ask.check|
              && e.status == Verdict(t.requests[id].ask, t.requests[id].gave)
  {
    RunKeeps(START, steps, t);
    UptoCount(|t.requests|, id);
  }

  /** Nothing is called back that was not sent. */
  lemma OnlySent(steps: seq<Step>, t: State)
    requires Reaches(START, steps, t)
    ensures forall e :: e in t.fired ==> e.id < |t.requests|
    ensures |t.fired| + |t.queue| == |t.requests|
  {
    RunKeeps(START, steps, t);
    UptoLength(|t.requests|);
    assert |multiset(Ids(t.fired)) + multiset(t.queue)| == |t.fired| + |t.queue|;
  }

  lemma {:induction false} UptoLength(n: nat)
    ensures |Upto(n)| == n
  {
    if n > 0 {
      UptoLength(n - 1);
    }
  }

  /** Once there is a challenge, every step but `SetChallenge` leaves it, and fetching it gives it. */
  lemma {:induction false} ChallengeStands(s: State, steps: seq<Step>, t: State)
    requires Inv(s) && Reaches(s, steps, t) && s.challenge.data != []
    requires forall i :: 0 <= i < |steps| ==> !steps[i].SetChallenge?
    ensures t.challenge == s.challenge && |t.challenge.data| == 8
    ensures forall offers, random :: Fetch(t.challenge, offers, random) == (Ok, s.challenge)
    decreases |steps|
  {
    if steps != [] {
      StepKeeps(s, steps[0]);
      ChallengeStands(Do(s, steps[0]), steps[1..], t);
    }
  }

  /** A fetch that succeeds on a reachable state leaves eight bytes for all later ones. */
  lemma FetchSettles(s: State, offers: seq<Offer>, random: Nonce)
    requires Inv(s)
    ensures var (status, c) := Fetch(s.challenge, offers, random);
            if status == Ok then |c.data| == 8 && c.setBy.Some? else c == s.challenge
  {
  }

  // ---- The object

  class AuthContext {
    var challenge: Challenge
    var requests: seq<Request>
    var queue: seq<nat>
    var fired: seq<Fired>

    ghost function View(): State
      reads this
    {
      State(challenge, requests, queue, fired)
    }

    constructor ()
      ensures View() == START
    {
      challenge, requests, queue, fired := START.challenge, [], [], [];
    }

    method SetChallengeTo(chal: Nonce, who: string)
      requires Ready(View())
      modifies this
      ensures View() == Do(old(View()), SetChallenge(chal, who))
    {
      challenge := challenge.(setBy := Some(who));
      challenge := challenge.(data := chal);
    }

    method Get(offers: seq<Offer>, random: Nonce) returns (status: Status, chal: Bytes)
      modifies this`challenge
      ensures (status, challenge) == Fetch(old(challenge), offers, random)
      ensures status == Ok ==> chal == challenge.data
    {
      if challenge.data != [] {
        return Ok, challenge.data;
      }
      var i := 0;
      while i < |offers|
        invariant i <= |offers| && challenge == old(challenge)
        invariant forall j :: 0 <= j < i ==> offers[j].status == NotImplemented
      {
        if offers[i].status == NotImplemented {
          i := i + 1;
          continue;
        }
        FirstIs(Statuses(offers), i);
        if offers[i].status != Ok {
          return offers[i].status, [];
        }
        if |offers[i].data| != 8 {
          return InternalError, [];
        }
        challenge := challenge.(data := offers[i].data, setBy := Some(offers[i].name));
        return Ok, challenge.data;
      }
      FirstIs(Statuses(offers), i);
      if challenge.setBy.None? {
        challenge := Challenge(random, Some("random"), true);
      }
      return Ok, challenge.data;
    }

    /** The common end of every request that does not wait for an event. */
    method Fail(ask: Ask, gave: Status, chosen: Option<nat>, status: Status)
      modifies this
      ensures View() == old(View()).(requests := old(requests) + [Request(ask, gave, chosen, status)],
                                     fired := old(fired) + [Fired(|old(requests)|, status)])
    {
      fired := fired + [Fired(|requests|, status)];
      requests := requests + [Request(ask, gave, chosen, status)];
    }

    method CheckPasswordSend(ask: Ask)
      requires |ask.want| == |ask.check|
      modifies this
      ensures View() == SendTo(old(View()), ask)
    {
      if !ask.mapped && ask.mapping != Ok {
        Fail(ask, Ok, None, ask.mapping);
        return;
      }
      var gave, _ := Get(ask.offers, ask.random);
      if gave != Ok {
        Fail(ask, gave, None, gave);
        return;
      }
      var i := 0;
      while i < |ask.want|
        invariant i <= |ask.want|
        invariant View() == old(View()).(challenge := Fetch(old(challenge), ask.offers, ask.random).1)
        invariant forall j :: 0 <= j < i ==> ask.want[j] == NotImplemented
      {
        if ask.want[i] == NotImplemented {
          i := i + 1;
          continue;
        }
        FirstIs(ask.want, i);
        if ask.want[i] != Ok {
          Fail(ask, gave, Some(i), ask.want[i]);
        } else if !ask.scheduled {
          Fail(ask, gave, Some(i), NoMemory);
        } else {
          queue := queue + [|requests|];
          requests := requests + [Request(ask, gave, Some(i), Ok)];
        }
        return;
      }
      FirstIs(ask.want, i);
      Fail(ask, gave, None, NoSuchUser);
    }

    /** The event handler; which event comes next is not ours to say. */
    method TimedHandler(k: nat)
      requires Ready(View()) && k < |queue|
      modifies this
      ensures View() == Do(old(View()), Deliver(k))
    {
      var id := queue[k];
      assert id in queue;
      queue := queue[..k] + queue[k + 1..];
      var r := requests[id];
      var status := r.ask.check[r.chosen.value];
      requests := requests[id := r.(status := status)];
      fired := fired + [Fired(id, status)];
    }
  }
}
