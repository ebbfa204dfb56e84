/**
 When a poll may publish an API twice: exactly when two of its workers have the API.
 */
module SharedApis {
  import opened Sequences
  import opened Discovery

  // ----- one worker never misses twice -----

  /** No worker but the i-th has the API. */
  ghost predicate OnlyWith(s: State, a: Api, i: nat) {
    forall j :: 0 <= j < |s.workers| && j != i ==> a !in s.workers[j].todo
  }

  predicate JustMissed(s: State, a: Api, i: nat) {
    i < |s.workers| && s.workers[i].stage == Missed && |s.workers[i].todo| > 0 && s.workers[i].todo[0] == a
  }

  lemma {:induction false} MissesAtMostOnce(s: State, f: Functions, schedule: seq<Action>, a: Api, i: nat)
    requires Follows(s, f, schedule) && OnlyWith(s, a, i)
    ensures MissedChecks(s, f, schedule, a) <= if JustMissed(s, a, i) then 0 else 1
    decreases |schedule|
  {
    if |schedule| > 0 {
      var act := schedule[0];
      var s1 := Act(s, f, act);
      if act.Store? && On(s, act, a) {
        CachedNeverMisses(s1, f, schedule[1..], a);
      } else {
        MissesAtMostOnce(s1, f, schedule[1..], a, i);
      }
    }
  }

  // ----- building schedules -----

  lemma {:induction false} FollowsInTwo(s: State, f: Functions, first: seq<Action>, rest: seq<Action>)
    requires Follows(s, f, first) && Follows(After(s, f, first), f, rest)
    ensures Follows(s, f, first + rest) && After(s, f, first + rest) == After(After(s, f, first), f, rest)
    decreases |first|
  {
    if |first| == 0 {
      assert first + rest == rest;
    } else {
      HeadAndTailOfSum(first, rest);
      FollowsInTwo(Act(s, f, first[0]), f, first[1..], rest);
    }
  }

  lemma OneAct(s: State, f: Functions, act: Action)
    requires Possible(s, act)
    ensures Follows(s, f, [act]) && After(s, f, [act]) == Act(s, f, act)
  {
  }

  /** A schedule with one act before it. */
  lemma Before(s: State, f: Functions, act: Action, rest: seq<Action>) returns (schedule: seq<Action>)
    requires Possible(s, act) && Follows(Act(s, f, act), f, rest)
    ensures Follows(s, f, schedule) && After(s, f, schedule) == After(Act(s, f, act), f, rest)
  {
    OneAct(s, f, act);
    FollowsInTwo(s, f, [act], rest);
    return [act] + rest;
  }

  function Next(w: Worker, i: nat): Action {
    match w.stage
    case Ready => Check(i)
    case Missed => Store(i)
    case Stored => Publish(i)
  }

  function Rank(w: Worker): nat {
    match w.stage
    case Ready => 2
    case Missed => 1
    case Stored => 0
  }

  /** The worker goes on alone until it has nothing left. */
  lemma {:induction false} FinishOne(s: State, f: Functions, i: nat) returns (schedule: seq<Action>)
    requires i < |s.workers|
    ensures Follows(s, f, schedule)
    ensures
      var t := After(s, f, schedule);
      && |t.workers| == |s.workers| && t.workers[i].todo == []
      && forall j :: 0 <= j < |s.workers| && j != i ==> t.workers[j] == s.workers[j]
    decreases |s.workers[i].todo|, Rank(s.workers[i])
  {
    if s.workers[i].todo == [] {
      return [];
    }
    var act := Next(s.workers[i], i);
    var rest := FinishOne(Act(s, f, act), f, i);
    schedule := Before(s, f, act, rest);
  }

  lemma {:induction false} FinishFrom(s: State, f: Functions, n: nat) returns (schedule: seq<Action>)
    requires n <= |s.workers| && forall j :: 0 <= j < n ==> s.workers[j].todo == []
    ensures Follows(s, f, schedule) && Finished(After(s, f, schedule))
    decreases |s.workers| - n
  {
    if n == |s.workers| {
      return [];
    }
    var first := FinishOne(s, f, n);
    var rest := FinishFrom(After(s, f, first), f, n + 1);
    FollowsInTwo(s, f, first, rest);
    return first + rest;
  }

  /** The worker goes on alone until the API is next; the API stays uncached. */
  lemma {:induction false} Advance(s: State, f: Functions, i: nat, a: Api) returns (schedule: seq<Action>)
    requires Injective(f) && i < |s.workers| && a in s.workers[i].todo && f.sum(a) !in s.cache
    requires s.workers[i].stage != Ready ==> s.workers[i].todo[0] != a
    ensures Follows(s, f, schedule)
    ensures
      var t := After(s, f, schedule);
      && |t.workers| == |s.workers| && f.sum(a) !in t.cache
      && t.workers[i].stage == Ready && |t.workers[i].todo| > 0 && t.workers[i].todo[0] == a
      && forall j :: 0 <= j < |s.workers| && j != i ==> t.workers[j] == s.workers[j]
    decreases |s.workers[i].todo|, Rank(s.workers[i])
  {
    var w := s.workers[i];
    if w.stage == Ready && w.todo[0] == a {
      return [];
    }
    var act := Next(w, i);
    assert a in w.todo[1..];
    var rest := Advance(Act(s, f, act), f, i, a);
    schedule := Before(s, f, act, rest);
  }

  // ----- two workers may both publish -----

  function Pending(s: State, a: Api): nat {
    Count(s.attempts, a) + Holders(s.workers, a)
  }

  lemma PendingGrows(s: State, f: Functions, schedule: seq<Action>, a: Api)
    requires Follows(s, f, schedule) && f.builds(a)
    ensures Pending(After(s, f, schedule), a) >= Pending(s, a)
  {
    RunConserves(s, f, schedule, a);
  }

  lemma BothMiss(s: State, f: Functions, i: nat, j: nat, a: Api) returns (schedule: seq<Action>)
    requires i < |s.workers| && j < |s.workers| && i != j && f.builds(a) && f.sum(a) !in s.cache
    requires s.workers[i].stage == Ready && |s.workers[i].todo| > 0 && s.workers[i].todo[0] == a
    requires s.workers[j].stage == Ready && |s.workers[j].todo| > 0 && s.workers[j].todo[0] == a
    ensures Follows(s, f, schedule) && Pending(After(s, f, schedule), a) >= 2
  {
    var s1 := Act(s, f, Check(i));
    ActConserves(s, f, Check(i), a);
    ActConserves(s1, f, Check(j), a);
    OneAct(s1, f, Check(j));
    schedule := Before(s, f, Check(i), [Check(j)]);
  }

  /** A schedule under which an API that two workers have is attempted twice. */
  lemma SharedIsAttemptedTwice(cache: set<string>, f: Functions, lists: seq<seq<Api>>, a: Api, i: nat, j: nat)
    returns (schedule: seq<Action>)
    requires Injective(f) && f.builds(a) && f.sum(a) !in cache
    requires i < j < |lists| && a in lists[i] && a in lists[j]
    ensures Completes(cache, f, lists, schedule)
    ensures Count(After(Start(cache, [], lists), f, schedule).attempts, a) >= 2
  {
    var s := Start(cache, [], lists);
    var first := Advance(s, f, i, a);
    var s1 := After(s, f, first);
    var second := Advance(s1, f, j, a);
    var s2 := After(s1, f, second);
    var third := BothMiss(s2, f, i, j, a);
    var s3 := After(s2, f, third);
    var fourth := FinishFrom(s3, f, 0);
    PendingGrows(s3, f, fourth, a);
    NobodyHolds(After(s3, f, fourth).workers, a);
    FollowsInTwo(s2, f, third, fourth);
    FollowsInTwo(s1, f, second, third + fourth);
    FollowsInTwo(s, f, first, second + (third + fourth));
    return first + (second + (third + fourth));
  }

  // ----- the exact condition -----

  /** The workers can follow the schedule, and are done at its end. */
  ghost predicate Completes(cache: set<string>, f: Functions, lists: seq<seq<Api>>, schedule: seq<Action>) {
    Follows(Start(cache, [], lists), f, schedule) && Finished(After(Start(cache, [], lists), f, schedule))
  }

  ghost predicate NeverTwice(cache: set<string>, f: Functions, lists: seq<seq<Api>>, a: Api) {
    forall schedule :: Completes(cache, f, lists, schedule) ==>
      Count(After(Start(cache, [], lists), f, schedule).attempts, a) <= 1
  }

  ghost predicate Shared(lists: seq<seq<Api>>, a: Api) {
    exists i, j :: 0 <= i < j < |lists| && a in lists[i] && a in lists[j]
  }

  lemma UnsharedIsAttemptedOnce(
      cache: set<string>, f: Functions, lists: seq<seq<Api>>, a: Api, schedule: seq<Action>)
    requires Injective(f) && f.builds(a) && f.sum(a) !in cache && !Shared(lists, a)
    requires Completes(cache, f, lists, schedule)
    ensures Count(After(Start(cache, [], lists), f, schedule).attempts, a) <= 1
  {
    var s := Start(cache, [], lists);
    var i: nat := 0;
    if exists k :: 0 <= k < |lists| && a in lists[k] {
      i :| 0 <= i < |lists| && a in lists[i];
    }
    assert OnlyWith(s, a, i);
    MissesAtMostOnce(s, f, schedule, a, i);
    RunConserves(s, f, schedule, a);
    NobodyHolds(s.workers, a);
  }

  /** An API that is not cached and can be built is attempted at most once, however the workers
      of a poll interleave, if and only if no two workers have it. */
  lemma AttemptedOnceIff(cache: set<string>, f: Functions, lists: seq<seq<Api>>, a: Api)
    requires Injective(f) && f.builds(a) && f.sum(a) !in cache
    ensures NeverTwice(cache, f, lists, a) <==> !Shared(lists, a)
  {
    if Shared(lists, a) {
      var i, j :| 0 <= i < j < |lists| && a in lists[i] && a in lists[j];
      var schedule := SharedIsAttemptedTwice(cache, f, lists, a, i, j);
      assert Completes(cache, f, lists, schedule);
    } else {
      forall schedule | Completes(cache, f, lists, schedule)
        ensures Count(After(Start(cache, [], lists), f, schedule).attempts, a) <= 1
      {
        UnsharedIsAttemptedOnce(cache, f, lists, a, schedule);
      }
    }
  }

  // ----- which configurations share -----

  /** The API is among those of a listing, unless the listing fails. */
  ghost predicate Gives(listing: Listing, a: Api) {
    listing.Services? ==> a in Flattened(listing.apis)
  }

  lemma SharedOfTwo(first: seq<seq<Api>>, second: seq<seq<Api>>, a: Api)
    requires a in Flattened(first) && a in Flattened(second)
    ensures Shared(first + second, a)
  {
    InFlattened(first, a);
    InFlattened(second, a);
    var i :| 0 <= i < |first| && a in first[i];
    var j :| 0 <= j < |second| && a in second[j];
    var both := first + second;
    assert both[i] == first[i] && both[|first| + j] == second[j];
  }

  lemma SharedWithMore(first: seq<seq<Api>>, more: seq<seq<Api>>, a: Api)
    requires Shared(first, a)
    ensures Shared(first + more, a)
  {
    var i, j :| 0 <= i < j < |first| && a in first[i] && a in first[j];
    assert (first + more)[i] == first[i] && (first + more)[j] == first[j];
  }

  lemma {:induction false} InStarted(
      workspaces: seq<string>, answer: (nat, string) -> Listing, n: nat, i: nat, a: Api)
    requires i < n <= |workspaces| && !Started(workspaces, answer, n).1 && Gives(answer(i, workspaces[i]), a)
    ensures a in Flattened(Started(workspaces, answer, n).0)
    decreases n
  {
    FlattenedInTwo(Started(workspaces, answer, n - 1).0, answer(n - 1, workspaces[n - 1]).apis);
    if i < n - 1 {
      InStarted(workspaces, answer, n - 1, i, a);
    }
  }

  lemma {:induction false} RepeatedIsShared(
      workspaces: seq<string>, answer: (nat, string) -> Listing, n: nat, i: nat, j: nat, a: Api)
    requires i < j < n <= |workspaces| && !Started(workspaces, answer, n).1
    requires Gives(answer(i, workspaces[i]), a) && Gives(answer(j, workspaces[j]), a)
    ensures Shared(Started(workspaces, answer, n).0, a)
    decreases n
  {
    var before, last := Started(workspaces, answer, n - 1).0, answer(n - 1, workspaces[n - 1]).apis;
    if j < n - 1 {
      RepeatedIsShared(workspaces, answer, n - 1, i, j, a);
      SharedWithMore(before, last, a);
    } else {
      InStarted(workspaces, answer, n - 1, i, a);
      SharedOfTwo(before, last, a);
    }
  }

  /** So an API that the listings of two configured workspaces give, as when one workspace is
      configured twice, may be attempted twice in one poll. */
  lemma RepeatedWorkspaceMayPublishTwice(
      workspaces: seq<string>, answer: (nat, string) -> Listing, i: nat, j: nat,
      lists: seq<seq<Api>>, cache: set<string>, f: Functions, a: Api)
    requires i < j < |workspaces|
    requires Gives(answer(i, workspaces[i]), a) && Gives(answer(j, workspaces[j]), a)
    requires Started(workspaces, answer, |workspaces|) == (lists, false)
    requires Injective(f) && f.builds(a) && f.sum(a) !in cache
    ensures !NeverTwice(cache, f, lists, a)
  {
    RepeatedIsShared(workspaces, answer, |workspaces|, i, j, a);
    AttemptedOnceIff(cache, f, lists, a);
  }
}
