/**
 Discovery polls: workers that run side by side, one per service, each taking the APIs of
 its service in order. For each API a worker checks the shared cache for its checksum,
 stores the checksum, and then tries to publish. The check and the store are two steps,
 and steps of different workers may interleave in any way.
 */
module Discovery {
  import opened Sequences

  /** An API as it is built from a route of a service. */
  datatype Api = Api(service: string, route: string, content: string)

  datatype Stage = Ready | Missed | Stored

  /** The APIs a worker still has to deal with; its stage concerns the first. */
  datatype Worker = Worker(todo: seq<Api>, stage: Stage)

  datatype State = State(cache: set<string>, attempts: seq<Api>, workers: seq<Worker>)

  datatype Action = Check(i: nat) | Store(i: nat) | Publish(i: nat)

  /** The checksum, and whether a service body can be built from the API at all. */
  datatype Functions = Functions(sum: Api -> string, builds: Api -> bool)

  predicate Possible(s: State, a: Action) {
    && a.i < |s.workers|
    && |s.workers[a.i].todo| > 0
    && match a
       case Check(i) => s.workers[i].stage == Ready
       case Store(i) => s.workers[i].stage == Missed
       case Publish(i) => s.workers[i].stage == Stored
  }

  function Act(s: State, f: Functions, a: Action): State
    requires Possible(s, a)
  {
    var w := s.workers[a.i];
    var api := w.todo[0];
    match a
    case Check(i) =>
      if f.sum(api) in s.cache then s.(workers := s.workers[i := Worker(w.todo[1..], Ready)])
      else s.(workers := s.workers[i := w.(stage := Missed)])
    case Store(i) =>
      s.(cache := s.cache + {f.sum(api)}, workers := s.workers[i := w.(stage := Stored)])
    case Publish(i) =>
      s.(attempts := s.attempts + (if f.builds(api) then [api] else []),
         workers := s.workers[i := Worker(w.todo[1..], Ready)])
  }

  /** The schedule is one the workers can follow. */
  predicate Follows(s: State, f: Functions, schedule: seq<Action>)
    decreases |schedule|
  {
    |schedule| == 0 || (Possible(s, schedule[0]) && Follows(Act(s, f, schedule[0]), f, schedule[1..]))
  }

  function After(s: State, f: Functions, schedule: seq<Action>): State
    requires Follows(s, f, schedule)
    decreases |schedule|
  {
    if |schedule| == 0 then s else After(Act(s, f, schedule[0]), f, schedule[1..])
  }

  ghost predicate Finished(s: State) {
    forall i :: 0 <= i < |s.workers| ==> s.workers[i].todo == []
  }

  // ----- what every step keeps -----

  ghost predicate Injective(f: Functions) {
    forall a, b :: f.sum(a) == f.sum(b) ==> a == b
  }

  /** No API is with two workers, or twice with one. */
  ghost predicate NoneTwice(s: State) {
    forall i, j, k, l ::
      0 <= i < |s.workers| && 0 <= k < |s.workers[i].todo| && 0 <= j < |s.workers| && 0 <= l < |s.workers[j].todo|
      && s.workers[i].todo[k] == s.workers[j].todo[l]
      ==> i == j && k == l
  }

  /** A worker's stage tells what the cache holds on its API. */
  ghost predicate StagesHold(s: State, f: Functions) {
    forall i :: 0 <= i < |s.workers| && s.workers[i].stage != Ready ==>
      && |s.workers[i].todo| > 0
      && (s.workers[i].stage == Missed ==> f.sum(s.workers[i].todo[0]) !in s.cache)
      && (s.workers[i].stage == Stored ==>
            f.sum(s.workers[i].todo[0]) in s.cache && s.workers[i].todo[0] !in s.attempts)
  }

  /** What was attempted is cached, and was attempted once. */
  ghost predicate AttemptsHold(s: State, f: Functions) {
    NoRepeats(s.attempts) && forall a :: a in s.attempts ==> f.sum(a) in s.cache
  }

  ghost predicate Sound(s: State, f: Functions) {
    NoneTwice(s) && StagesHold(s, f) && AttemptsHold(s, f)
  }

  lemma ChangeKeepsNoneTwice(s: State, i: nat, w: Worker, c: set<string>, t: seq<Api>)
    requires NoneTwice(s) && i < |s.workers|
    requires w.todo == s.workers[i].todo || (|s.workers[i].todo| > 0 && w.todo == s.workers[i].todo[1..])
    ensures NoneTwice(State(c, t, s.workers[i := w]))
  {
  }

  lemma HeadsDiffer(s: State, i: nat, j: nat)
    requires NoneTwice(s) && i < |s.workers| && j < |s.workers| && i != j
    requires |s.workers[i].todo| > 0 && |s.workers[j].todo| > 0
    ensures s.workers[i].todo[0] != s.workers[j].todo[0]
  {
  }

  lemma ActKeepsStages(s: State, f: Functions, a: Action)
    requires Injective(f) && Sound(s, f) && Possible(s, a)
    ensures StagesHold(Act(s, f, a), f)
  {
  }

  lemma ActKeepsSound(s: State, f: Functions, a: Action)
    requires Injective(f) && Sound(s, f) && Possible(s, a)
    ensures Sound(Act(s, f, a), f)
  {
    var s' := Act(s, f, a);
    ActKeepsStages(s, f, a);
    ChangeKeepsNoneTwice(s, a.i, s'.workers[a.i], s'.cache, s'.attempts);
  }

  // ----- what no step changes: the outcome -----

  ghost predicate Waiting(s: State, a: Api) {
    exists i, k :: 0 <= i < |s.workers| && 0 <= k < |s.workers[i].todo| && s.workers[i].todo[k] == a
  }

  ghost predicate InFlight(s: State, a: Api) {
    exists i :: 0 <= i < |s.workers| && s.workers[i].stage == Stored
                && |s.workers[i].todo| > 0 && s.workers[i].todo[0] == a
  }

  /** The checksum will be in the cache when all workers are done. */
  ghost predicate WillCache(s: State, f: Functions, c: string) {
    c in s.cache || exists a :: Waiting(s, a) && f.sum(a) == c
  }

  /** The API has been attempted, or will be before all workers are done. */
  ghost predicate WillAttempt(s: State, f: Functions, a: Api) {
    a in s.attempts || (Waiting(s, a) && f.builds(a) && (f.sum(a) !in s.cache || InFlight(s, a)))
  }

  lemma WaitingBefore(s: State, f: Functions, act: Action, a: Api)
    requires NoneTwice(s) && Possible(s, act) && Waiting(Act(s, f, act), a)
    ensures
      var s', w := Act(s, f, act), s.workers[act.i];
      Waiting(s, a) && (|s'.workers[act.i].todo| < |w.todo| ==> a != w.todo[0])
  {
  }

  lemma StillWaiting(s: State, f: Functions, act: Action, a: Api)
    requires Possible(s, act) && Waiting(s, a)
    requires |Act(s, f, act).workers[act.i].todo| < |s.workers[act.i].todo| ==> a != s.workers[act.i].todo[0]
    ensures Waiting(Act(s, f, act), a)
  {
    var s', w := Act(s, f, act), s.workers[act.i];
    var d := |w.todo| - |s'.workers[act.i].todo|;
    var i, k :| 0 <= i < |s.workers| && 0 <= k < |s.workers[i].todo| && s.workers[i].todo[k] == a;
    assert s'.workers[i].todo[if i == act.i then k - d else k] == a;
  }

  lemma WaitingAfter(s: State, f: Functions, act: Action, a: Api)
    requires NoneTwice(s) && Possible(s, act)
    ensures
      var s', w := Act(s, f, act), s.workers[act.i];
      Waiting(s', a) <==> Waiting(s, a) && (|s'.workers[act.i].todo| < |w.todo| ==> a != w.todo[0])
  {
    var s', w := Act(s, f, act), s.workers[act.i];
    if Waiting(s', a) {
      WaitingBefore(s, f, act, a);
    } else if Waiting(s, a) && (|s'.workers[act.i].todo| < |w.todo| ==> a != w.todo[0]) {
      StillWaiting(s, f, act, a);
    }
  }

  lemma InFlightAfter(s: State, f: Functions, act: Action, a: Api)
    requires NoneTwice(s) && StagesHold(s, f) && Possible(s, act)
    ensures
      var s', head := Act(s, f, act), s.workers[act.i].todo[0];
      InFlight(s', a) <==> if a == head then act.Store? else InFlight(s, a)
  {
    var s', head := Act(s, f, act), s.workers[act.i].todo[0];
    if InFlight(s', a) {
      var i :| 0 <= i < |s'.workers| && s'.workers[i].stage == Stored
               && |s'.workers[i].todo| > 0 && s'.workers[i].todo[0] == a;
      if i != act.i {
        HeadsDiffer(s, i, act.i);
        assert s.workers[i].todo[0] == a;
      }
    }
    if a == head && act.Store? {
      assert s'.workers[act.i].todo[0] == a;
    }
    if a != head && InFlight(s, a) {
      var i :| 0 <= i < |s.workers| && s.workers[i].stage == Stored
               && |s.workers[i].todo| > 0 && s.workers[i].todo[0] == a;
      assert s'.workers[i].todo[0] == a;
    }
  }

  lemma HeadIsWaiting(s: State, f: Functions, act: Action)
    requires NoneTwice(s) && StagesHold(s, f) && Possible(s, act)
    ensures Waiting(s, s.workers[act.i].todo[0])
    ensures InFlight(s, s.workers[act.i].todo[0]) <==> act.Publish?
  {
  }

  lemma ActKeepsAttemptOutcome(s: State, f: Functions, act: Action, a: Api)
    requires Injective(f) && Sound(s, f) && Possible(s, act)
    ensures WillAttempt(Act(s, f, act), f, a) <==> WillAttempt(s, f, a)
  {
    WaitingAfter(s, f, act, a);
    InFlightAfter(s, f, act, a);
    HeadIsWaiting(s, f, act);
  }

  lemma ActKeepsCacheOutcome(s: State, f: Functions, act: Action, c: string)
    requires Injective(f) && Sound(s, f) && Possible(s, act)
    ensures WillCache(Act(s, f, act), f, c) <==> WillCache(s, f, c)
  {
    var s', head := Act(s, f, act), s.workers[act.i].todo[0];
    HeadIsWaiting(s, f, act);
    if c !in s.cache && WillCache(s, f, c) {
      var a :| Waiting(s, a) && f.sum(a) == c;
      WaitingAfter(s, f, act, a);
    }
    if c !in s'.cache && WillCache(s', f, c) {
      var a :| Waiting(s', a) && f.sum(a) == c;
      WaitingAfter(s, f, act, a);
    }
  }

  lemma {:induction false} RunKeepsOutcome(s: State, f: Functions, schedule: seq<Action>)
    requires Injective(f) && Sound(s, f) && Follows(s, f, schedule)
    ensures Sound(After(s, f, schedule), f)
    ensures forall a :: WillAttempt(After(s, f, schedule), f, a) <==> WillAttempt(s, f, a)
    ensures forall c :: WillCache(After(s, f, schedule), f, c) <==> WillCache(s, f, c)
    decreases |schedule|
  {
    if |schedule| > 0 {
      var s1 := Act(s, f, schedule[0]);
      ActKeepsSound(s, f, schedule[0]);
      RunKeepsOutcome(s1, f, schedule[1..]);
      forall a ensures WillAttempt(s1, f, a) <==> WillAttempt(s, f, a) {
        ActKeepsAttemptOutcome(s, f, schedule[0], a);
      }
      forall c ensures WillCache(s1, f, c) <==> WillCache(s, f, c) {
        ActKeepsCacheOutcome(s, f, schedule[0], c);
      }
    }
  }

  // ----- one poll equals the sequential order -----

  /** One API after the other, nothing in between. */
  function Sequential(cache: set<string>, f: Functions, apis: seq<Api>): (set<string>, seq<Api>)
    decreases |apis|
  {
    if |apis| == 0 then (cache, [])
    else if f.sum(apis[0]) in cache then Sequential(cache, f, apis[1..])
    else
      var (c, t) := Sequential(cache + {f.sum(apis[0])}, f, apis[1..]);
      (c, (if f.builds(apis[0]) then [apis[0]] else []) + t)
  }

  lemma {:induction false} SequentialOutcome(cache: set<string>, f: Functions, apis: seq<Api>)
    requires Injective(f) && NoRepeats(apis)
    ensures
      var (c, t) := Sequential(cache, f, apis);
      && (forall x :: x in c <==> x in cache || exists a :: a in apis && f.sum(a) == x)
      && (forall a :: a in t <==> a in apis && f.builds(a) && f.sum(a) !in cache)
    decreases |apis|
  {
    if |apis| > 0 {
      var cache' := if f.sum(apis[0]) in cache then cache else cache + {f.sum(apis[0])};
      SequentialOutcome(cache', f, apis[1..]);
      assert apis[0] !in apis[1..];
      assert forall a :: a in apis <==> a == apis[0] || a in apis[1..];
    }
  }

  function Start(cache: set<string>, attempts: seq<Api>, lists: seq<seq<Api>>): State {
    State(cache, attempts, seq(|lists|, i requires 0 <= i < |lists| => Worker(lists[i], Ready)))
  }

  function Flattened(lists: seq<seq<Api>>): seq<Api> {
    if |lists| == 0 then [] else lists[0] + Flattened(lists[1..])
  }

  lemma {:induction false} InFlattened(lists: seq<seq<Api>>, a: Api)
    ensures a in Flattened(lists) <==> exists i :: 0 <= i < |lists| && a in lists[i]
  {
    if |lists| > 0 {
      InFlattened(lists[1..], a);
      if a in Flattened(lists[1..]) {
        var i :| 0 <= i < |lists[1..]| && a in lists[1..][i];
        assert a in lists[i + 1];
      }
      if exists i :: 0 <= i < |lists| && a in lists[i] {
        var i :| 0 <= i < |lists| && a in lists[i];
        assert i > 0 ==> a in lists[1..][i - 1];
      }
    }
  }

  lemma StartIsSound(cache: set<string>, f: Functions, attempts: seq<Api>, lists: seq<seq<Api>>)
    requires NoRepeats(Flattened(lists))
    requires NoRepeats(attempts) && forall a :: a in attempts ==> f.sum(a) in cache
    ensures Sound(Start(cache, attempts, lists), f)
  {
    FlattenedKeepsApart(lists);
  }

  lemma {:induction false} FlattenedKeepsApart(lists: seq<seq<Api>>)
    requires NoRepeats(Flattened(lists))
    ensures forall i, j, k, l ::
      0 <= i < |lists| && 0 <= k < |lists[i]| && 0 <= j < |lists| && 0 <= l < |lists[j]|
      && lists[i][k] == lists[j][l]
      ==> i == j && k == l
  {
    if |lists| > 0 {
      var rest, flat := lists[1..], Flattened(lists);
      forall i, j | 0 <= i < j < |Flattened(rest)| ensures Flattened(rest)[i] != Flattened(rest)[j] {
        assert flat[|lists[0]| + i] == Flattened(rest)[i] && flat[|lists[0]| + j] == Flattened(rest)[j];
      }
      FlattenedKeepsApart(rest);
      forall k, l | 0 <= k < |lists[0]| && 0 <= l < |lists[0]| && lists[0][k] == lists[0][l] ensures k == l {
        assert flat[k] == lists[0][k] && flat[l] == lists[0][l];
      }
      forall k, j, l | 0 <= k < |lists[0]| && 0 < j < |lists| && 0 <= l < |lists[j]|
        ensures lists[0][k] != lists[j][l]
      {
        assert lists[j][l] in rest[j - 1];
        InFlattened(rest, lists[j][l]);
        var m :| 0 <= m < |Flattened(rest)| && Flattened(rest)[m] == lists[j][l];
        assert flat[k] == lists[0][k] && flat[|lists[0]| + m] == lists[j][l];
      }
      forall i, j, k, l |
        0 <= i < |lists| && 0 <= k < |lists[i]| && 0 <= j < |lists| && 0 <= l < |lists[j]| && lists[i][k] == lists[j][l]
        ensures i == j && k == l
      {
        if i > 0 && j > 0 {
          assert rest[i - 1][k] == rest[j - 1][l];
        }
      }
    }
  }

  lemma WaitingAtStart(cache: set<string>, attempts: seq<Api>, lists: seq<seq<Api>>, a: Api)
    ensures Waiting(Start(cache, attempts, lists), a) <==> a in Flattened(lists)
    ensures !InFlight(Start(cache, attempts, lists), a)
  {
    var s := Start(cache, attempts, lists);
    InFlattened(lists, a);
    if a in Flattened(lists) {
      var i :| 0 <= i < |lists| && a in lists[i];
      var k :| 0 <= k < |lists[i]| && lists[i][k] == a;
      assert s.workers[i].todo[k] == a;
    }
  }

  /** Every interleaving in which all workers finish ends with the cache, and makes the
      publish attempts, of the sequential order - each attempt once. */
  lemma InterleavingIsSequential(cache: set<string>, f: Functions, lists: seq<seq<Api>>, schedule: seq<Action>)
    requires Injective(f) && NoRepeats(Flattened(lists))
    requires Follows(Start(cache, [], lists), f, schedule)
    requires Finished(After(Start(cache, [], lists), f, schedule))
    ensures
      var end := After(Start(cache, [], lists), f, schedule);
      var (c, t) := Sequential(cache, f, Flattened(lists));
      && end.cache == c
      && (forall a :: a in end.attempts <==> a in t)
      && NoRepeats(end.attempts)
  {
    var s, apis := Start(cache, [], lists), Flattened(lists);
    var end := After(s, f, schedule);
    StartIsSound(cache, f, [], lists);
    RunKeepsOutcome(s, f, schedule);
    SequentialOutcome(cache, f, apis);
    forall a ensures Waiting(s, a) <==> a in apis
             ensures !InFlight(s, a)
    {
      WaitingAtStart(cache, [], lists, a);
    }
    assert forall a :: !Waiting(end, a);
    forall x ensures x in end.cache <==> x in Sequential(cache, f, apis).0 {
      assert x in end.cache <==> WillCache(end, f, x);
      assert WillCache(s, f, x) <==> x in cache || exists a :: a in apis && f.sum(a) == x;
    }
    forall a ensures a in end.attempts <==> a in Sequential(cache, f, apis).1 {
      assert a in end.attempts <==> WillAttempt(end, f, a);
    }
  }

  /** A worker on its own. A route without a name, plugins or endpoints yields no API. */
  class Agent {
    const f: Functions
    var cache: set<string>
    var attempts: seq<Api>

    constructor (f: Functions)
      ensures this.f == f && cache == {} && attempts == []
    {
      this.f, cache, attempts := f, {}, [];
    }

    method IsPublished(api: Api) returns (published: bool, checksum: string)
      ensures checksum == f.sum(api) && published == (checksum in cache)
    {
      checksum := f.sum(api);
      published := checksum in cache;
    }

    /** Check, store, build, publish. */
    method SpecPreparation(api: Api)
      modifies this
      ensures cache == Sequential(old(cache), f, [api]).0
      ensures attempts == old(attempts) + Sequential(old(cache), f, [api]).1
    {
      var published, checksum := IsPublished(api);
      if published {
        return;
      }
      cache := cache + {checksum};
      if !f.builds(api) {
        return;
      }
      attempts := attempts + [api];
    }

    /** The routes of one service, in order. */
    method ProcessSingleKongService(apis: seq<Api>)
      modifies this
      ensures cache == Sequential(old(cache), f, apis).0
      ensures attempts == old(attempts) + Sequential(old(cache), f, apis).1
    {
      for i := 0 to |apis|
        invariant cache == Sequential(old(cache), f, apis[..i]).0
        invariant attempts == old(attempts) + Sequential(old(cache), f, apis[..i]).1
      {
        SequentialInTwo(old(cache), f, apis[..i], [apis[i]]);
        assert apis[..i + 1] == apis[..i] + [apis[i]];
        SpecPreparation(apis[i]);
      }
      assert apis[..|apis|] == apis;
    }
  }

  lemma {:induction false} SequentialInTwo(cache: set<string>, f: Functions, a: seq<Api>, b: seq<Api>)
    ensures
      var (c, t) := Sequential(cache, f, a);
      var (c', t') := Sequential(c, f, b);
      Sequential(cache, f, a + b).0 == c' && Sequential(cache, f, a + b).1 == t + t'
    decreases |a|
  {
    if |a| == 0 {
      assert a + b == b;
    } else {
      assert (a + b)[1..] == a[1..] + b;
      var cache' := if f.sum(a[0]) in cache then cache else cache + {f.sum(a[0])};
      SequentialInTwo(cache', f, a[1..], b);
    }
  }

  // ----- all polls -----

  /** A poll: what each worker finds, and how the workers interleave until all are done. */
  datatype Poll = Poll(lists: seq<seq<Api>>, schedule: seq<Action>)

  ghost predicate GoodPoll(s: State, f: Functions, p: Poll) {
    && NoRepeats(Flattened(p.lists))
    && Follows(Start(s.cache, s.attempts, p.lists), f, p.schedule)
    && Finished(After(Start(s.cache, s.attempts, p.lists), f, p.schedule))
  }

  ghost predicate GoodPolls(s: State, f: Functions, polls: seq<Poll>)
    decreases |polls|
  {
    |polls| == 0
    || (GoodPoll(s, f, polls[0])
        && GoodPolls(After(Start(s.cache, s.attempts, polls[0].lists), f, polls[0].schedule), f, polls[1..]))
  }

  ghost function AfterPolls(s: State, f: Functions, polls: seq<Poll>): State
    requires GoodPolls(s, f, polls)
    decreases |polls|
  {
    if |polls| == 0 then s
    else AfterPolls(After(Start(s.cache, s.attempts, polls[0].lists), f, polls[0].schedule), f, polls[1..])
  }

  /** Over any number of polls, one after the other, no API value is ever attempted twice,
      not even one whose publication failed. */
  lemma {:induction false} AttemptedAtMostOnce(s: State, f: Functions, polls: seq<Poll>)
    requires Injective(f) && AttemptsHold(s, f) && GoodPolls(s, f, polls)
    ensures NoRepeats(AfterPolls(s, f, polls).attempts)
    decreases |polls|
  {
    if |polls| > 0 {
      var start := Start(s.cache, s.attempts, polls[0].lists);
      StartIsSound(s.cache, f, s.attempts, polls[0].lists);
      RunKeepsOutcome(start, f, polls[0].schedule);
      AttemptedAtMostOnce(After(start, f, polls[0].schedule), f, polls[1..]);
    }
  }

  // ----- the workers of a poll -----

  /** Kong's answer when asked for the services of a workspace: the APIs of each service that
      passes the filter, or an error. */
  datatype Listing = Failed | Services(apis: seq<seq<Api>>)

  /** The workers a poll starts, workspace by workspace as configured, a repeated one as
      often as it stands there; and whether it returns early, leaving them at work. */
  function Started(workspaces: seq<string>, answer: (nat, string) -> Listing, n: nat): (seq<seq<Api>>, bool)
    requires n <= |workspaces|
  {
    if n == 0 then ([], false)
    else
      var (lists, err) := Started(workspaces, answer, n - 1);
      if err || answer(n - 1, workspaces[n - 1]).Failed? then (lists, true)
      else (lists + answer(n - 1, workspaces[n - 1]).apis, false)
  }

  lemma {:induction false} FailureStops(workspaces: seq<string>, answer: (nat, string) -> Listing, n: nat, m: nat)
    requires n <= m <= |workspaces| && Started(workspaces, answer, n).1
    ensures Started(workspaces, answer, m) == Started(workspaces, answer, n)
  {
    if n < m {
      FailureStops(workspaces, answer, n, m - 1);
    }
  }

  /** No listing before the n-th failed. */
  ghost predicate AnsweredUpTo(workspaces: seq<string>, answer: (nat, string) -> Listing, n: nat) {
    n <= |workspaces| && forall i :: 0 <= i < n ==> answer(i, workspaces[i]).Services?
  }

  /** A poll reports an error if and only if some listing fails, and starts a worker for
      exactly those services that a listing before the first failure gives. */
  lemma {:induction false} PollFailsIff(
      workspaces: seq<string>, answer: (nat, string) -> Listing, n: nat, l: seq<Api>)
    requires n <= |workspaces|
    ensures Started(workspaces, answer, n).1 <==> exists i :: 0 <= i < n && answer(i, workspaces[i]).Failed?
    ensures l in Started(workspaces, answer, n).0 <==>
            exists i :: 0 <= i < n && AnsweredUpTo(workspaces, answer, i + 1) && l in answer(i, workspaces[i]).apis
  {
    if n > 0 {
      PollFailsIff(workspaces, answer, n - 1, l);
    }
  }

  /** Without a failure it starts them workspace by workspace, in the order of each listing. */
  lemma WorkersInOrder(workspaces: seq<string>, answer: (nat, string) -> Listing, n: nat)
    requires n < |workspaces| && AnsweredUpTo(workspaces, answer, n + 1)
    ensures Started(workspaces, answer, n + 1).0 == Started(workspaces, answer, n).0 + answer(n, workspaces[n]).apis
  {
    PollFailsIff(workspaces, answer, n, []);
  }

  method DiscoverAPIs(workspaces: seq<string>, answer: (nat, string) -> Listing)
    returns (lists: seq<seq<Api>>, err: bool)
    ensures (lists, err) == Started(workspaces, answer, |workspaces|)
  {
    lists := [];
    for i := 0 to |workspaces|
      invariant Started(workspaces, answer, i) == (lists, false)
    {
      var services := answer(i, workspaces[i]);
      if services.Failed? {
        FailureStops(workspaces, answer, i + 1, |workspaces|);
        return lists, true;
      }
      lists := lists + services.apis;
    }
    return lists, false;
  }

  lemma {:induction false} FlattenedInTwo(a: seq<seq<Api>>, b: seq<seq<Api>>)
    ensures Flattened(a + b) == Flattened(a) + Flattened(b)
  {
    if |a| == 0 {
      assert a + b == b;
    } else {
      assert (a + b)[1..] == a[1..] + b;
      FlattenedInTwo(a[1..], b);
    }
  }

  /** When the configured workspaces differ, and with them their APIs, no two workers of a
      poll meet the same API. */
  lemma {:induction false} DistinctWorkspacesKeepApart(
      workspaces: seq<string>, answer: (nat, string) -> Listing, n: nat)
    requires n <= |workspaces| && NoRepeats(workspaces)
    requires forall i, w :: answer(i, w).Services? ==> NoRepeats(Flattened(answer(i, w).apis))
    requires forall i, v, j, w, a :: answer(i, v).Services? && answer(j, w).Services?
                                     && a in Flattened(answer(i, v).apis) && a in Flattened(answer(j, w).apis)
               ==> v == w
    ensures NoRepeats(Flattened(Started(workspaces, answer, n).0))
    ensures forall a :: a in Flattened(Started(workspaces, answer, n).0) ==>
              exists i :: 0 <= i < n && answer(i, workspaces[i]).Services?
                          && a in Flattened(answer(i, workspaces[i]).apis)
  {
    if n > 0 {
      DistinctWorkspacesKeepApart(workspaces, answer, n - 1);
      var (lists, err) := Started(workspaces, answer, n - 1);
      if !err && answer(n - 1, workspaces[n - 1]).Services? {
        FlattenedInTwo(lists, answer(n - 1, workspaces[n - 1]).apis);
        NoRepeatsInTwo(Flattened(lists), Flattened(answer(n - 1, workspaces[n - 1]).apis));
      }
    }
  }

  // ----- how often an API is attempted -----

  function Count(apis: seq<Api>, a: Api): nat {
    if |apis| == 0 then 0 else (if apis[0] == a then 1 else 0) + Count(apis[1..], a)
  }

  /** The worker is past a check of the API that missed. */
  predicate Holds(w: Worker, a: Api) {
    w.stage != Ready && |w.todo| > 0 && w.todo[0] == a
  }

  function Holders(workers: seq<Worker>, a: Api): nat {
    if |workers| == 0 then 0 else (if Holds(workers[0], a) then 1 else 0) + Holders(workers[1..], a)
  }

  predicate On(s: State, act: Action, a: Api)
    requires Possible(s, act)
  {
    s.workers[act.i].todo[0] == a
  }

  /** How often the schedule checks the API before it first stores it. */
  function EarlyChecks(s: State, f: Functions, schedule: seq<Action>, a: Api): nat
    requires Follows(s, f, schedule)
    decreases |schedule|
  {
    if |schedule| == 0 || (On(s, schedule[0], a) && schedule[0].Store?) then 0
    else
      (if On(s, schedule[0], a) && schedule[0].Check? then 1 else 0)
      + EarlyChecks(Act(s, f, schedule[0]), f, schedule[1..], a)
  }

  lemma {:induction false} CountOneMore(apis: seq<Api>, b: Api, a: Api)
    ensures Count(apis + [b], a) == Count(apis, a) + if b == a then 1 else 0
  {
    if |apis| == 0 {
      assert apis + [b] == [b];
    } else {
      assert (apis + [b])[1..] == apis[1..] + [b];
      CountOneMore(apis[1..], b, a);
    }
  }

  lemma {:induction false} HoldersAfterChange(workers: seq<Worker>, i: nat, w: Worker, a: Api)
    requires i < |workers|
    ensures Holders(workers[i := w], a)
            == Holders(workers, a) - (if Holds(workers[i], a) then 1 else 0) + (if Holds(w, a) then 1 else 0)
  {
    if i == 0 {
      assert workers[i := w][1..] == workers[1..];
    } else {
      assert workers[i := w][1..] == workers[1..][i - 1 := w];
      HoldersAfterChange(workers[1..], i - 1, w, a);
    }
  }

  /** Attempts and holders together grow by exactly the checks that miss. */
  lemma ActConserves(s: State, f: Functions, act: Action, a: Api)
    requires Possible(s, act) && f.builds(a)
    ensures
      var s' := Act(s, f, act);
      Count(s'.attempts, a) + Holders(s'.workers, a)
      == Count(s.attempts, a) + Holders(s.workers, a)
         + if act.Check? && On(s, act, a) && f.sum(a) !in s.cache then 1 else 0
  {
    var s' := Act(s, f, act);
    HoldersAfterChange(s.workers, act.i, s'.workers[act.i], a);
    assert s'.workers == s.workers[act.i := s'.workers[act.i]];
    CountOneMore(s.attempts, s.workers[act.i].todo[0], a);
    assert s.attempts + [] == s.attempts;
  }

  /** How often the schedule checks the API and misses. */
  function MissedChecks(s: State, f: Functions, schedule: seq<Action>, a: Api): nat
    requires Follows(s, f, schedule)
    decreases |schedule|
  {
    if |schedule| == 0 then 0
    else
      (if schedule[0].Check? && On(s, schedule[0], a) && f.sum(a) !in s.cache then 1 else 0)
      + MissedChecks(Act(s, f, schedule[0]), f, schedule[1..], a)
  }

  /** In every run of any workers: an API's attempts, and the workers that are past a missed
      check of it, have together grown by its missed checks. */
  lemma {:induction false} RunConserves(s: State, f: Functions, schedule: seq<Action>, a: Api)
    requires Follows(s, f, schedule) && f.builds(a)
    ensures
      var end := After(s, f, schedule);
      Count(end.attempts, a) + Holders(end.workers, a)
      == Count(s.attempts, a) + Holders(s.workers, a) + MissedChecks(s, f, schedule, a)
    decreases |schedule|
  {
    if |schedule| > 0 {
      ActConserves(s, f, schedule[0], a);
      RunConserves(Act(s, f, schedule[0]), f, schedule[1..], a);
    }
  }

  lemma {:induction false} CachedNeverMisses(s: State, f: Functions, schedule: seq<Action>, a: Api)
    requires Follows(s, f, schedule) && f.sum(a) in s.cache
    ensures MissedChecks(s, f, schedule, a) == 0
    decreases |schedule|
  {
    if |schedule| > 0 {
      CachedNeverMisses(Act(s, f, schedule[0]), f, schedule[1..], a);
    }
  }

  lemma {:induction false} MissedAreEarly(s: State, f: Functions, schedule: seq<Action>, a: Api)
    requires Injective(f) && Follows(s, f, schedule) && f.sum(a) !in s.cache
    ensures MissedChecks(s, f, schedule, a) == EarlyChecks(s, f, schedule, a)
    decreases |schedule|
  {
    if |schedule| > 0 {
      var s1 := Act(s, f, schedule[0]);
      if On(s, schedule[0], a) && schedule[0].Store? {
        CachedNeverMisses(s1, f, schedule[1..], a);
      } else {
        MissedAreEarly(s1, f, schedule[1..], a);
      }
    }
  }

  lemma {:induction false} NobodyHolds(workers: seq<Worker>, a: Api)
    requires forall i :: 0 <= i < |workers| ==> workers[i].todo == [] || workers[i].stage == Ready
    ensures Holders(workers, a) == 0
  {
    if |workers| > 0 {
      NobodyHolds(workers[1..], a);
    }
  }

  /** Whatever workers a poll starts, the same API with several of them included: an API that
      is not cached and can be built is attempted exactly as often as it is checked before it
      is first stored. */
  lemma AttemptsAreEarlyChecks(cache: set<string>, f: Functions, lists: seq<seq<Api>>, schedule: seq<Action>, a: Api)
    requires Injective(f) && f.builds(a) && f.sum(a) !in cache
    requires Follows(Start(cache, [], lists), f, schedule)
    requires Finished(After(Start(cache, [], lists), f, schedule))
    ensures Count(After(Start(cache, [], lists), f, schedule).attempts, a)
            == EarlyChecks(Start(cache, [], lists), f, schedule, a)
  {
    var s := Start(cache, [], lists);
    RunConserves(s, f, schedule, a);
    MissedAreEarly(s, f, schedule, a);
    NobodyHolds(s.workers, a);
    NobodyHolds(After(s, f, schedule).workers, a);
  }

  /** Taking the same routes again, all in the cache by then, publishes nothing. */
  lemma {:induction false} SecondPassPublishesNothing(cache: set<string>, f: Functions, apis: seq<Api>)
    requires forall a :: a in apis ==> f.sum(a) in cache
    ensures Sequential(cache, f, apis) == (cache, [])
    decreases |apis|
  {
    if |apis| > 0 {
      SecondPassPublishesNothing(cache, f, apis[1..]);
    }
  }

  lemma {:induction false} SequentialCaches(cache: set<string>, f: Functions, apis: seq<Api>)
    ensures cache <= Sequential(cache, f, apis).0
    ensures forall a :: a in apis ==> f.sum(a) in Sequential(cache, f, apis).0
    decreases |apis|
  {
    if |apis| > 0 {
      SequentialCaches(cache + {f.sum(apis[0])}, f, apis[1..]);
      SequentialCaches(cache, f, apis[1..]);
      assert forall a :: a in apis ==> a == apis[0] || a in apis[1..];
    }
  }

  /** A service processed a second time finds each of its APIs published already, even one
      whose service body could not be built or whose publication failed. */
  lemma SecondPassFindsAllPublished(cache: set<string>, f: Functions, apis: seq<Api>)
    ensures
      var (c, _) := Sequential(cache, f, apis);
      Sequential(c, f, apis) == (c, [])
  {
    SequentialCaches(cache, f, apis);
    SecondPassPublishesNothing(Sequential(cache, f, apis).0, f, apis);
  }
}
