/**
 Shutting down the traceability agent: request handlers that each process a batch in the
 background, the shutdown handler that waits for them, and `Run`, which waits for the
 shutdown handler. The three meet in two wait groups, `processing` and `shutdownDone`.
 */
module Shutdown {

  /** A request: being read, then counted in `processing` while its batch is parsed and
      published, then done. A batch that does not parse is not published. */
  datatype Stage = Reading | Counted | Handled | Finished

  /** `early` records that the batch was counted before the shutdown handler's wait for
      `processing` returned. */
  datatype Batch = Batch(stage: Stage, parses: bool, published: bool, early: bool)

  datatype Handler = Idle | Waiting | Drained | Flushed | Cleaned | Signalled

  datatype Runner = Serving | Returned | Awaiting | Exited

  /** The counters are those of the wait groups; a negative one is a panic. */
  datatype Beater = Beater(
    processing: int, shutdownDone: int,
    batches: seq<Batch>, handler: Handler, runner: Runner, panicked: bool)

  const START := Beater(0, 0, [], Idle, Serving, false)

  datatype Action =
    | Accept(parses: bool)     // a POST request arrives
    | Add(i: nat)              // its body has been read: processing.Add(1)
    | Handle(i: nat)           // the batch is parsed and, if it parses, published
    | Done(i: nat)             // processing.Done()
    | Stop                     // the shutdown handler starts
    | Drain                    // processing.Wait() returns
    | Flush                    // metrics and usage are published
    | Clean                    // the agent resource is cleaned
    | Signal                   // shutdownDone.Done()
    | Return                   // ListenAndServe returns
    | Await                    // shutdownDone.Add(1)
    | Exit                     // shutdownDone.Wait() returns

  predicate At(b: Beater, i: nat, stage: Stage) {
    i < |b.batches| && b.batches[i].stage == stage
  }

  predicate Possible(b: Beater, a: Action) {
    && !b.panicked
    && match a
       case Accept(_) => true
       case Add(i) => At(b, i, Reading)
       case Handle(i) => At(b, i, Counted)
       case Done(i) => At(b, i, Handled)
       case Stop => b.handler.Idle?
       case Drain => b.handler.Waiting? && b.processing == 0
       case Flush => b.handler.Drained?
       case Clean => b.handler.Flushed?
       case Signal => b.handler.Cleaned?
       case Return => b.runner.Serving?
       case Await => b.runner.Returned?
       case Exit => b.runner.Awaiting? && b.shutdownDone == 0
  }

  predicate BeforeDrain(h: Handler) {
    h.Idle? || h.Waiting?
  }

  function Act(b: Beater, a: Action): Beater
    requires Possible(b, a)
  {
    match a
    case Accept(parses) => b.(batches := b.batches + [Batch(Reading, parses, false, false)])
    case Add(i) =>
      b.(processing := b.processing + 1,
         batches := b.batches[i := b.batches[i].(stage := Counted, early := BeforeDrain(b.handler))])
    case Handle(i) =>
      b.(batches := b.batches[i := b.batches[i].(stage := Handled, published := b.batches[i].parses)])
    case Done(i) =>
      b.(processing := b.processing - 1,
         batches := b.batches[i := b.batches[i].(stage := Finished)],
         panicked := b.processing - 1 < 0)
    case Stop => b.(handler := Waiting)
    case Drain => b.(handler := Drained)
    case Flush => b.(handler := Flushed)
    case Clean => b.(handler := Cleaned)
    case Signal => b.(handler := Signalled, shutdownDone := b.shutdownDone - 1, panicked := b.shutdownDone - 1 < 0)
    case Return => b.(runner := Returned)
    case Await => b.(runner := Awaiting, shutdownDone := b.shutdownDone + 1)
    case Exit => b.(runner := Exited)
  }

  predicate Follows(b: Beater, run: seq<Action>)
    decreases |run|
  {
    |run| == 0 || (Possible(b, run[0]) && Follows(Act(b, run[0]), run[1..]))
  }

  function After(b: Beater, run: seq<Action>): Beater
    requires Follows(b, run)
    decreases |run|
  {
    if |run| == 0 then b else After(Act(b, run[0]), run[1..])
  }

  // ----- invariants -----

  function InProgress(batches: seq<Batch>): nat {
    if |batches| == 0 then 0
    else (if batches[0].stage in {Counted, Handled} then 1 else 0) + InProgress(batches[1..])
  }

  lemma {:induction false} InProgressAfterChange(batches: seq<Batch>, i: nat, x: Batch)
    requires i < |batches|
    ensures InProgress(batches[i := x])
            == InProgress(batches) - (if batches[i].stage in {Counted, Handled} then 1 else 0)
               + (if x.stage in {Counted, Handled} then 1 else 0)
  {
    if i == 0 {
      assert batches[i := x][1..] == batches[1..];
    } else {
      assert batches[i := x][1..] == batches[1..][i - 1 := x];
      InProgressAfterChange(batches[1..], i - 1, x);
    }
  }

  lemma {:induction false} InProgressOneMore(batches: seq<Batch>, x: Batch)
    requires x.stage == Reading
    ensures InProgress(batches + [x]) == InProgress(batches)
  {
    if |batches| == 0 {
      assert batches + [x] == [x];
    } else {
      assert (batches + [x])[1..] == batches[1..] + [x];
      InProgressOneMore(batches[1..], x);
    }
  }

  lemma {:induction false} NobodyInProgress(batches: seq<Batch>, i: nat)
    requires InProgress(batches) == 0 && i < |batches|
    ensures batches[i].stage !in {Counted, Handled}
  {
    if i > 0 {
      NobodyInProgress(batches[1..], i - 1);
    }
  }

  /** Published exactly when handled and parsed; counted early only before the drain. */
  ghost predicate BatchHolds(x: Batch, h: Handler) {
    && (x.stage in {Reading, Counted} ==> !x.published)
    && (x.stage in {Handled, Finished} ==> x.published == x.parses)
    && (x.stage == Reading ==> !x.early)
    && (x.stage != Reading && BeforeDrain(h) ==> x.early)
    && (x.early && !BeforeDrain(h) ==> x.stage == Finished)
  }

  /** What `shutdownDone` holds: one if `Run` has added and the handler has not signalled. */
  ghost predicate DoneHolds(b: Beater) {
    b.shutdownDone == (if b.runner in {Awaiting, Exited} then 1 else 0) - (if b.handler.Signalled? then 1 else 0)
  }

  ghost predicate Inv(b: Beater) {
    && b.processing == InProgress(b.batches)
    && DoneHolds(b)
    && (b.panicked <==> b.shutdownDone < 0)
    && (b.runner.Exited? ==> b.handler.Signalled?)
    && forall i :: 0 <= i < |b.batches| ==> BatchHolds(b.batches[i], b.handler)
  }

  lemma ActKeepsCount(b: Beater, a: Action)
    requires b.processing == InProgress(b.batches) && Possible(b, a)
    ensures Act(b, a).processing == InProgress(Act(b, a).batches)
  {
    var b' := Act(b, a);
    match a
    case Accept(parses) => InProgressOneMore(b.batches, Batch(Reading, parses, false, false));
    case Add(i) => InProgressAfterChange(b.batches, i, b'.batches[i]);
    case Handle(i) => InProgressAfterChange(b.batches, i, b'.batches[i]);
    case Done(i) => InProgressAfterChange(b.batches, i, b'.batches[i]);
    case _ =>
  }

  lemma ActKeepsInv(b: Beater, a: Action)
    requires Inv(b) && Possible(b, a)
    ensures Inv(Act(b, a))
  {
    ActKeepsCount(b, a);
    var b' := Act(b, a);
    forall i | 0 <= i < |b'.batches| ensures BatchHolds(b'.batches[i], b'.handler) {
      ActKeepsBatch(b, a, i);
    }
  }

  lemma ActKeepsBatch(b: Beater, a: Action, i: nat)
    requires Inv(b) && Possible(b, a) && i < |Act(b, a).batches|
    ensures BatchHolds(Act(b, a).batches[i], Act(b, a).handler)
  {
    if i < |b.batches| {
      assert BatchHolds(b.batches[i], b.handler);
      if a.Drain? {
        NobodyInProgress(b.batches, i);
      }
    }
  }

  lemma {:induction false} RunKeepsInv(b: Beater, run: seq<Action>)
    requires Inv(b) && Follows(b, run)
    ensures Inv(After(b, run))
    decreases |run|
  {
    if |run| > 0 {
      ActKeepsInv(b, run[0]);
      RunKeepsInv(Act(b, run[0]), run[1..]);
    }
  }

  // ----- what the protocol guarantees -----

  /** In every reachable state `processing` is the number of batches between Add and Done,
      so that wait group never goes negative. */
  lemma ProcessingCountsHandlers(run: seq<Action>)
    requires Follows(START, run)
    ensures After(START, run).processing == InProgress(After(START, run).batches) >= 0
  {
    RunKeepsInv(START, run);
  }

  /** From the drain on - so in particular when metrics are flushed - every batch that was
      counted before the shutdown handler's wait returned is finished, and published if it
      parsed. */
  lemma EarlyBatchesArePublishedBeforeFlush(run: seq<Action>, i: nat)
    requires Follows(START, run)
    requires !BeforeDrain(After(START, run).handler)
    requires i < |After(START, run).batches| && After(START, run).batches[i].early
    ensures
      var x := After(START, run).batches[i];
      x.stage == Finished && x.published == x.parses
  {
    RunKeepsInv(START, run);
  }

  /** The i-th batch is there and marked. */
  predicate IsEarly(b: Beater, i: nat) {
    i < |b.batches| && b.batches[i].early
  }

  lemma {:induction false} MarksStayAfterDrain(b: Beater, run: seq<Action>, i: nat)
    requires Inv(b) && !BeforeDrain(b.handler) && Follows(b, run)
    ensures IsEarly(After(b, run), i) <==> IsEarly(b, i)
    decreases |run|
  {
    if |run| > 0 {
      ActKeepsInv(b, run[0]);
      MarksStayAfterDrain(Act(b, run[0]), run[1..], i);
    }
  }

  /** `early` means what it says, in every state: until the drain a batch is early if and only
      if it has been counted, and ever after if and only if it had been by then. */
  lemma EarlyIffCountedBeforeDrain(run: seq<Action>, rest: seq<Action>, i: nat)
    requires Follows(START, run) && BeforeDrain(After(START, run).handler)
    requires rest != [] ==> rest[0].Drain? && Follows(After(START, run), rest)
    ensures
      var now := After(START, run);
      IsEarly(if rest == [] then now else After(now, rest), i) <==> i < |now.batches| && now.batches[i].stage != Reading
  {
    RunKeepsInv(START, run);
    var now := After(START, run);
    if rest != [] {
      ActKeepsInv(now, Drain);
      MarksStayAfterDrain(Act(now, Drain), rest[1..], i);
    }
  }

  /** Every run that gets past the drain falls into two such parts. */
  lemma {:induction false} SplitsAtDrain(b: Beater, run: seq<Action>) returns (first: seq<Action>, rest: seq<Action>)
    requires Follows(b, run) && BeforeDrain(b.handler) && !BeforeDrain(After(b, run).handler)
    ensures run == first + rest && rest != [] && rest[0].Drain?
    ensures Follows(b, first) && BeforeDrain(After(b, first).handler) && Follows(After(b, first), rest)
    ensures After(After(b, first), rest) == After(b, run)
    decreases |run|
  {
    if run[0].Drain? {
      return [], run;
    }
    first, rest := SplitsAtDrain(Act(b, run[0]), run[1..]);
    assert run == [run[0]] + run[1..];
    assert ([run[0]] + first)[1..] == first;
    first := [run[0]] + first;
  }

  /** What has become of a batch when `Run` exits: it is published if and only if it parses
      and its handler got that far, and whatever is still in progress was counted after the
      drain. */
  lemma BatchAtExit(run: seq<Action>, i: nat)
    requires Follows(START, run) && After(START, run).runner.Exited? && i < |After(START, run).batches|
    ensures
      var b := After(START, run);
      var x := b.batches[i];
      && (x.published <==> x.parses && x.stage in {Handled, Finished})
      && (x.stage in {Counted, Handled} ==> !x.early)
      && (x.early ==> x.stage == Finished)
      && b.processing == InProgress(b.batches)
  {
    RunKeepsInv(START, run);
  }

  // ----- the counters tell what has been done -----

  function AddsOf(run: seq<Action>): int {
    if |run| == 0 then 0
    else (if run[0].Add? then 1 else if run[0].Done? then -1 else 0) + AddsOf(run[1..])
  }

  function AwaitsOf(run: seq<Action>): int {
    if |run| == 0 then 0
    else (if run[0].Await? then 1 else if run[0].Signal? then -1 else 0) + AwaitsOf(run[1..])
  }

  /** Each wait group has counted its calls of Add and of Done, whatever came between. */
  lemma {:induction false} CountersFollowCalls(b: Beater, run: seq<Action>)
    requires Follows(b, run)
    ensures After(b, run).processing == b.processing + AddsOf(run)
    ensures After(b, run).shutdownDone == b.shutdownDone + AwaitsOf(run)
    decreases |run|
  {
    if |run| > 0 {
      CountersFollowCalls(Act(b, run[0]), run[1..]);
    }
  }

  // ----- what has been done by the time `Run` exits -----

  lemma {:induction false} ActAt(b: Beater, run: seq<Action>, n: nat)
    requires Follows(b, run) && n < |run|
    ensures Follows(b, run[..n]) && Possible(After(b, run[..n]), run[n])
    ensures Follows(b, run[..n + 1]) && After(b, run[..n + 1]) == Act(After(b, run[..n]), run[n])
    decreases n
  {
    assert run[..n + 1][0] == run[0] && run[..n + 1][1..] == run[1..][..n];
    if n == 0 {
      assert run[..0] == [] && run[1..][..0] == [];
    } else {
      assert run[..n][0] == run[0] && run[..n][1..] == run[1..][..n - 1];
      ActAt(Act(b, run[0]), run[1..], n - 1);
    }
  }

  predicate MovesHandler(a: Action) {
    a.Stop? || a.Drain? || a.Flush? || a.Clean? || a.Signal?
  }

  /** The last move of the shutdown handler, which led to where it is now. */
  lemma {:induction false} LastMove(run: seq<Action>) returns (i: nat)
    requires Follows(START, run) && !After(START, run).handler.Idle?
    ensures i < |run| && MovesHandler(run[i])
    ensures Follows(START, run[..i]) && Possible(After(START, run[..i]), run[i])
    ensures Act(After(START, run[..i]), run[i]).handler == After(START, run).handler
    decreases |run|
  {
    var n := |run| - 1;
    ActAt(START, run, n);
    assert run[..n + 1] == run;
    if MovesHandler(run[n]) {
      return n;
    }
    i := LastMove(run[..n]);
    assert run[..n][..i] == run[..i];
  }

  /** A handler that has signalled has drained the handlers of requests before that, then
      flushed and then cleaned. */
  lemma StagesInOrder(run: seq<Action>) returns (drain: nat, flush: nat, clean: nat, signal: nat)
    requires Follows(START, run) && After(START, run).handler.Signalled?
    ensures drain < flush < clean < signal < |run|
    ensures run[drain].Drain? && run[flush].Flush? && run[clean].Clean? && run[signal].Signal?
  {
    signal := LastMove(run);
    clean := LastMove(run[..signal]);
    assert run[..signal][..clean] == run[..clean];
    flush := LastMove(run[..clean]);
    assert run[..clean][..flush] == run[..flush];
    drain := LastMove(run[..flush]);
  }

  predicate MovesRunner(a: Action) {
    a.Return? || a.Await? || a.Exit?
  }

  /** The last move of `Run`, which led to where it is now. */
  lemma {:induction false} LastRunnerMove(run: seq<Action>) returns (i: nat)
    requires Follows(START, run) && !After(START, run).runner.Serving?
    ensures i < |run| && MovesRunner(run[i])
    ensures Follows(START, run[..i]) && Possible(After(START, run[..i]), run[i])
    ensures Act(After(START, run[..i]), run[i]).runner == After(START, run).runner
    decreases |run|
  {
    var n := |run| - 1;
    ActAt(START, run, n);
    assert run[..n + 1] == run;
    if MovesRunner(run[n]) {
      return n;
    }
    i := LastRunnerMove(run[..n]);
    assert run[..n][..i] == run[..i];
  }

  /** `Run` adds itself only once the server has returned, and exits only after that. */
  lemma RunnerInOrder(run: seq<Action>, exit: nat) returns (served: nat, await: nat)
    requires Follows(START, run) && exit < |run| && run[exit].Exit?
    ensures served < await < exit && run[served].Return? && run[await].Await?
  {
    ActAt(START, run, exit);
    await := LastRunnerMove(run[..exit]);
    assert run[..exit][..await] == run[..await];
    served := LastRunnerMove(run[..await]);
  }

  /** A batch is published only by its own handler, after it was counted. */
  lemma {:induction false} PublishedByHandler(run: seq<Action>, i: nat) returns (add: nat, handle: nat)
    requires Follows(START, run) && i < |After(START, run).batches| && After(START, run).batches[i].published
    ensures add < handle < |run| && run[add] == Add(i) && run[handle] == Handle(i)
    decreases |run|
  {
    var n := |run| - 1;
    ActAt(START, run, n);
    RunKeepsInv(START, run[..n]);
    assert run[..n + 1] == run;
    if run[n] == Handle(i) {
      add := CountedByAdd(run[..n], i);
      return add, n;
    }
    add, handle := PublishedByHandler(run[..n], i);
  }

  lemma {:induction false} CountedByAdd(run: seq<Action>, i: nat) returns (add: nat)
    requires Follows(START, run) && i < |After(START, run).batches| && !After(START, run).batches[i].stage.Reading?
    ensures add < |run| && run[add] == Add(i)
    decreases |run|
  {
    var n := |run| - 1;
    ActAt(START, run, n);
    assert run[..n + 1] == run;
    if run[n] == Add(i) {
      return n;
    }
    add := CountedByAdd(run[..n], i);
  }

  /** A flush finds every early batch finished, and published if it parsed. */
  lemma FlushFindsEarlyPublished(run: seq<Action>, flush: nat)
    requires Follows(START, run) && flush < |run| && run[flush].Flush?
    ensures Follows(START, run[..flush + 1])
    ensures
      var flushed := After(START, run[..flush + 1]).batches;
      forall i :: 0 <= i < |flushed| && flushed[i].early ==>
        flushed[i].stage == Finished && flushed[i].published == flushed[i].parses
  {
    ActAt(START, run, flush);
    RunKeepsInv(START, run[..flush + 1]);
  }

  /** `Run` gets past its final wait only after the shutdown handler has drained, then flushed,
      then cleaned and then signalled; and when it flushed every early batch was finished, and
      published if it parsed. */
  lemma ExitOnlyAfterCleanup(run: seq<Action>, exit: nat)
    returns (drain: nat, flush: nat, clean: nat, signal: nat)
    requires Follows(START, run) && exit < |run| && run[exit].Exit?
    ensures drain < flush < clean < signal < exit
    ensures run[drain].Drain? && run[flush].Flush? && run[clean].Clean? && run[signal].Signal?
    ensures Follows(START, run[..flush + 1])
    ensures
      var flushed := After(START, run[..flush + 1]).batches;
      forall i :: 0 <= i < |flushed| && flushed[i].early ==>
        flushed[i].stage == Finished && flushed[i].published == flushed[i].parses
  {
    ActAt(START, run, exit);
    RunKeepsInv(START, run[..exit]);
    drain, flush, clean, signal := StagesInOrder(run[..exit]);
    FlushFindsEarlyPublished(run, flush);
  }

  /** And `Run` has exited only if it got past that wait. */
  lemma {:induction false} ExitedIff(b: Beater, run: seq<Action>)
    requires Follows(b, run) && !b.runner.Exited?
    ensures After(b, run).runner.Exited? <==> exists x :: 0 <= x < |run| && run[x].Exit?
    decreases |run|
  {
    if |run| > 0 {
      var b1, rest := Act(b, run[0]), run[1..];
      if b1.runner.Exited? {
        assert run[0].Exit?;
        ExitedStays(b1, rest);
      } else {
        ExitedIff(b1, rest);
        if exists x :: 0 <= x < |run| && run[x].Exit? {
          var x :| 0 <= x < |run| && run[x].Exit?;
          assert rest[x - 1].Exit?;
        }
        if exists x :: 0 <= x < |rest| && rest[x].Exit? {
          var x :| 0 <= x < |rest| && rest[x].Exit?;
          assert run[x + 1].Exit?;
        }
      }
    }
  }

  lemma {:induction false} ExitedStays(b: Beater, run: seq<Action>)
    requires Follows(b, run) && b.runner.Exited?
    ensures After(b, run).runner.Exited?
    decreases |run|
  {
    if |run| > 0 {
      ExitedStays(Act(b, run[0]), run[1..]);
    }
  }

  /** A wait group goes negative if and only if the shutdown handler signals before `Run`
      has added itself. */
  lemma PanicsIff(run: seq<Action>)
    requires Follows(START, run)
    ensures
      var b := After(START, run);
      b.panicked <==> b.handler.Signalled? && (b.runner.Serving? || b.runner.Returned?)
  {
    RunKeepsInv(START, run);
    assert DoneHolds(After(START, run));
  }

  /** A run carried one step further. */
  lemma {:induction false} OneMore(b: Beater, run: seq<Action>, a: Action)
    requires Follows(b, run) && Possible(After(b, run), a)
    ensures Follows(b, run + [a]) && After(b, run + [a]) == Act(After(b, run), a)
    decreases |run|
  {
    if |run| == 0 {
      assert run + [a] == [a];
      assert [a][1..] == [];
    } else {
      OneMore(Act(b, run[0]), run[1..], a);
      assert (run + [a])[1..] == run[1..] + [a];
    }
  }

  lemma Then(run: seq<Action>, a: Action) returns (run': seq<Action>)
    requires Follows(START, run) && Possible(After(START, run), a)
    ensures Follows(START, run') && After(START, run') == Act(After(START, run), a)
  {
    OneMore(START, run, a);
    return run + [a];
  }

  /** Such a run exists: the handler is through before the server has returned. */
  lemma SignalMayComeFirst() returns (run: seq<Action>)
    ensures Follows(START, run) && After(START, run).panicked
  {
    run := [];
    run := Then(run, Stop);
    run := Then(run, Drain);
    run := Then(run, Flush);
    run := Then(run, Clean);
    run := Then(run, Signal);
  }

  /** And a batch counted after the drain may still be in progress when `Run` exits. */
  lemma LateBatchMayBeLost() returns (run: seq<Action>)
    ensures Follows(START, run) && After(START, run).runner.Exited?
    ensures After(START, run).batches == [Batch(Counted, true, false, false)]
  {
    run := [];
    run := Then(run, Accept(true));
    assert After(START, run).batches == [Batch(Reading, true, false, false)];
    run := Then(run, Return);
    run := Then(run, Await);
    run := Then(run, Stop);
    run := Then(run, Drain);
    run := Then(run, Add(0));
    run := Then(run, Flush);
    run := Then(run, Clean);
    run := Then(run, Signal);
    run := Then(run, Exit);
  }
}
