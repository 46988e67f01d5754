/** The sidecar's client-id cache: when a repeated order intent reaches the venue twice. */
module OrderIntents {

  type ClientId = string

  datatype Response = Accepted | VenueRejected | UnknownSubmission

  /** A call that has passed the cache lookup and has not returned yet. */
  datatype Call = Call(client: ClientId, posted: bool)

  /** `posts` counts the orders that reached the venue; it is history, not program state. */
  datatype Sidecar = Sidecar(cache: map<ClientId, Response>, calls: map<nat, Call>, posts: multiset<ClientId>)

  const IDLE := Sidecar(map[], map[], multiset{})

  /**
   * The steps of `submitOrderIntent` between its awaits: look the id up, return a validation
   * rejection (not cached), post to the venue, return with a response (cached, whether or not
   * the post was reached).
   */
  datatype Event =
    | Begin(call: nat, client: ClientId)
    | RejectValidation(call: nat)
    | Post(call: nat)
    | Return(call: nat, response: Response)

  predicate Legal(s: Sidecar, e: Event) {
    match e
    case Begin(call, _) => call !in s.calls
    case RejectValidation(call) => call in s.calls && !s.calls[call].posted
    case Post(call) => call in s.calls && !s.calls[call].posted
    case Return(call, response) => call in s.calls && (response != UnknownSubmission ==> s.calls[call].posted)
  }

  function Step(s: Sidecar, e: Event): Sidecar
    requires Legal(s, e)
  {
    match e
    case Begin(call, client) => if client in s.cache then s else s.(calls := s.calls[call := Call(client, false)])
    case RejectValidation(call) => s.(calls := s.calls - {call})
    case Post(call) =>
      s.(calls := s.calls[call := s.calls[call].(posted := true)], posts := s.posts + multiset{s.calls[call].client})
    case Return(call, response) => s.(cache := s.cache[s.calls[call].client := response], calls := s.calls - {call})
  }

  /** No call begins while another call for the same client id is in flight. */
  predicate Alone(s: Sidecar, e: Event) {
    e.Begin? ==> forall k | k in s.calls :: s.calls[k].client != e.client
  }

  ghost predicate Run(s: Sidecar, es: seq<Event>, alone: bool)
    decreases |es|
  {
    es == [] || (Legal(s, es[0]) && (alone ==> Alone(s, es[0])) && Run(Step(s, es[0]), es[1..], alone))
  }

  ghost function After(s: Sidecar, es: seq<Event>, alone: bool): Sidecar
    requires Run(s, es, alone)
    decreases |es|
  {
    if es == [] then s else After(Step(s, es[0]), es[1..], alone)
  }

  /** The client id of some call in flight. */
  ghost predicate InFlight(s: Sidecar, c: ClientId) {
    exists k | k in s.calls :: s.calls[k].client == c
  }

  /** Calls in flight have distinct, uncached ids; an id that is neither cached nor in flight was never posted. */
  ghost predicate Inv(s: Sidecar) {
    && (forall j, k | j in s.calls && k in s.calls && j != k :: s.calls[j].client != s.calls[k].client)
    && (forall k | k in s.calls ::
          s.calls[k].client !in s.cache && s.posts[s.calls[k].client] == if s.calls[k].posted then 1 else 0)
    && (forall c :: s.posts[c] <= if c in s.cache || InFlight(s, c) then 1 else 0)
  }

  lemma BeginKeeps(s: Sidecar, e: Event)
    requires Inv(s) && e.Begin? && Legal(s, e) && Alone(s, e)
    ensures Inv(Step(s, e))
  {
    var s' := Step(s, e);
    forall c
      ensures InFlight(s, c) ==> InFlight(s', c)
    {
      if InFlight(s, c) {
        var k :| k in s.calls && s.calls[k].client == c;
        assert s'.calls[k].client == c;
      }
    }
  }

  lemma PostKeeps(s: Sidecar, e: Event)
    requires Inv(s) && e.Post? && Legal(s, e)
    ensures Inv(Step(s, e))
  {
    var s' := Step(s, e);
    assert s'.calls[e.call].client == s.calls[e.call].client;
    forall c
      ensures InFlight(s, c) ==> InFlight(s', c)
    {
      if InFlight(s, c) {
        var k :| k in s.calls && s.calls[k].client == c;
        assert s'.calls[k].client == c;
      }
    }
  }

  /** A call leaves: without a post nothing is owed to it, with a post its id is now cached. */
  lemma LeaveKeeps(s: Sidecar, e: Event)
    requires Inv(s) && (e.RejectValidation? || e.Return?) && Legal(s, e)
    ensures Inv(Step(s, e))
  {
    var s', client := Step(s, e), s.calls[e.call].client;
    forall c
      ensures InFlight(s, c) && c != client ==> InFlight(s', c)
    {
      if InFlight(s, c) && c != client {
        var k :| k in s.calls && s.calls[k].client == c;
        assert s'.calls[k].client == c;
      }
    }
  }

  lemma StepKeeps(s: Sidecar, e: Event)
    requires Inv(s) && Legal(s, e) && Alone(s, e)
    ensures Inv(Step(s, e))
  {
    hide Inv, Step, Legal, Alone;
    match e
    case Begin(_, _) => BeginKeeps(s, e);
    case Post(_) => PostKeeps(s, e);
    case RejectValidation(_) => LeaveKeeps(s, e);
    case Return(_, _) => LeaveKeeps(s, e);
  }

  /** Calls that do not overlap on a client id reach the venue at most once per id, over any run. */
  lemma {:induction false} AtMostOnePost(s: Sidecar, es: seq<Event>, client: ClientId)
    requires Inv(s) && Run(s, es, true)
    ensures After(s, es, true).posts[client] <= 1
    decreases |es|
  {
    hide Step, Legal, Alone, InFlight;
    if es != [] {
      StepKeeps(s, es[0]);
      AtMostOnePost(Step(s, es[0]), es[1..], client);
    }
  }

  /**
   * Non-overlap is needed wherever it matters: while a call for an id is in flight, posted or not, a
   * second call for the same id can begin, and the id can then be posted twice in all.
   */
  lemma OverlapPostsTwice(s: Sidecar, first: nat, second: nat) returns (es: seq<Event>)
    requires Inv(s) && first in s.calls && second !in s.calls
    ensures Run(s, es, false)
    ensures After(s, es, false).posts[s.calls[first].client] == 2
  {
    var client := s.calls[first].client;
    var e := Begin(second, client);
    var s1 := Step(s, e);
    assert s1.calls[first] == s.calls[first] && s1.calls[second] == Call(client, false) && s1.posts == s.posts;
    if s.calls[first].posted {
      OneStep(Step(s1, Post(second)), [], Post(second), s1);
      OneStep(s1, [Post(second)], e, s);
      es := [e, Post(second)];
      assert [e] + [Post(second)] == es && [Post(second)] + [] == [Post(second)];
    } else {
      var s2 := Step(s1, Post(first));
      assert s2.calls[second] == Call(client, false);
      OneStep(Step(s2, Post(second)), [], Post(second), s2);
      OneStep(s2, [Post(second)], Post(first), s1);
      OneStep(s1, [Post(first), Post(second)], e, s);
      es := [e, Post(first), Post(second)];
      assert [Post(second)] + [] == [Post(second)] && [Post(first)] + [Post(second)] == [Post(first), Post(second)];
      assert [e] + [Post(first), Post(second)] == es;
    }
  }

  lemma OneStep(s': Sidecar, rest: seq<Event>, e: Event, s: Sidecar)
    requires Legal(s, e) && s' == Step(s, e) && Run(s', rest, false)
    ensures Run(s, [e] + rest, false) && After(s, [e] + rest, false) == After(s', rest, false)
  {
    hide Step, Legal;
    assert ([e] + rest)[1..] == rest;
  }
}
