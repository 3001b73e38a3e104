/** The package's own tally test (containerd_stats_test.go), as a property of
    the model: the ten mock containers, under any clock and parser for which
    the test's two deadlines fall on either side of now and its malformed
    deadline does not parse. */
module ContainerdStatsTest {
  import opened Common
  import opened StatsRecord
  import opened ContainerdExecution
  import opened ContainerdStats

  const Malformed: string := "not-a-real-time"

  /** What the test's deadlines must mean to the parser and clock. */
  predicate TestClock(now: Time, parse: string -> Option<Time>, past: string, future: string)
  {
    && parse(past).Some? && now > parse(past).value
    && parse(future).Some? && now <= parse(future).value
    && parse(Malformed).None?
  }

  /** mockContainer1 to mockContainer10. */
  function MockContainer(k: nat, past: string, future: string): ContainerView
    requires 1 <= k <= 10
  {
    var none: map<string, string> := map[];
    match k
    case 1 => ContainerView(Success(none), Success(TaskView(Success(Running))))
    case 2 => ContainerView(Success(map[DeadlineLabel := past]), Success(TaskView(Success(Stopped))))
    case 3 => ContainerView(Success(map[DeadlineLabel := Malformed]), Success(TaskView(Success(Created))))
    case 4 => ContainerView(Success(map[DeadlineLabel := future]), Success(TaskView(Success(Running))))
    case 5 => ContainerView(Success(none), Success(TaskView(Success(Unknown))))
    case 6 => ContainerView(Success(none), Success(TaskView(Failure(Message("unit-test")))))
    case 7 => ContainerView(Success(none), Failure(Message("unit-test")))
    case 8 => ContainerView(Success(none), Failure(NotFound))
    case 9 => ContainerView(Success(none), Success(TaskView(Success(Pausing))))
    case _ => ContainerView(Success(none), Success(TaskView(Success(Paused))))
  }

  /** The first k mock containers, in the test's order. */
  function MockContainers(k: nat, past: string, future: string): (cs: seq<ContainerView>)
    requires k <= 10
    ensures |cs| == k
  {
    if k == 0 then [] else MockContainers(k - 1, past, future) + [MockContainer(k, past, future)]
  }

  /** Summing one more container adds its contribution. */
  lemma SumOfSnoc(cs: seq<ContainerView>, c: ContainerView, delta: ContainerView -> Stats)
    ensures SumOf(cs + [c], delta) == Add(SumOf(cs, delta), delta(c))
  {
    assert (cs + [c])[..|cs|] == cs;
  }

  /** What each mock container is meant to contribute, as the test's
      comments say. */
  predicate MeetsExpectation(delta: ContainerView -> Stats, past: string, future: string)
  {
    && delta(ContainerView(Success(map[]), Success(TaskView(Success(Running)))))
       == Stats(1, 0, 0, 0, 0, 0, 0, 0)
    && delta(ContainerView(Success(map[DeadlineLabel := past]), Success(TaskView(Success(Stopped)))))
       == Stats(0, 0, 1, 0, 0, 0, 1, 0)
    && delta(ContainerView(Success(map[DeadlineLabel := Malformed]), Success(TaskView(Success(Created)))))
       == Stats(0, 1, 0, 0, 0, 0, 0, 1)
    && delta(ContainerView(Success(map[DeadlineLabel := future]), Success(TaskView(Success(Running)))))
       == Stats(1, 0, 0, 0, 0, 0, 0, 0)
    && delta(ContainerView(Success(map[]), Success(TaskView(Success(Unknown)))))
       == Stats(0, 0, 0, 0, 0, 1, 0, 0)
    && delta(ContainerView(Success(map[]), Success(TaskView(Failure(Message("unit-test"))))))
       == Stats(0, 0, 0, 0, 0, 0, 0, 1)
    && delta(ContainerView(Success(map[]), Failure(Message("unit-test"))))
       == Stats(0, 0, 0, 0, 0, 0, 0, 1)
    && delta(ContainerView(Success(map[]), Failure(NotFound)))
       == Stats(0, 0, 0, 0, 0, 0, 0, 0)
    && delta(ContainerView(Success(map[]), Success(TaskView(Success(Pausing)))))
       == Stats(0, 0, 0, 0, 1, 0, 0, 0)
    && delta(ContainerView(Success(map[]), Success(TaskView(Success(Paused)))))
       == Stats(0, 0, 0, 1, 0, 0, 0, 0)
  }

  // What each container shape of the test contributes to the tally, one
  // lemma per shape: the label branch and the task branch together.

  lemma RunningDelta(now: Time, parse: string -> Option<Time>)
    ensures var delta := c => ContainerDelta(c, now, parse);
            delta(ContainerView(Success(map[]), Success(TaskView(Success(Running)))))
            == Stats(1, 0, 0, 0, 0, 0, 0, 0)
  {
  }

  lemma PassedDeadlineDelta(now: Time, parse: string -> Option<Time>, past: string)
    requires parse(past).Some? && now > parse(past).value
    ensures var delta := c => ContainerDelta(c, now, parse);
            delta(ContainerView(Success(map[DeadlineLabel := past]), Success(TaskView(Success(Stopped)))))
            == Stats(0, 0, 1, 0, 0, 0, 1, 0)
  {
  }

  lemma MalformedDeadlineDelta(now: Time, parse: string -> Option<Time>)
    requires parse(Malformed).None?
    ensures var delta := c => ContainerDelta(c, now, parse);
            delta(ContainerView(Success(map[DeadlineLabel := Malformed]), Success(TaskView(Success(Created)))))
            == Stats(0, 1, 0, 0, 0, 0, 0, 1)
  {
  }

  lemma FutureDeadlineDelta(now: Time, parse: string -> Option<Time>, future: string)
    requires parse(future).Some? && now <= parse(future).value
    ensures var delta := c => ContainerDelta(c, now, parse);
            delta(ContainerView(Success(map[DeadlineLabel := future]), Success(TaskView(Success(Running)))))
            == Stats(1, 0, 0, 0, 0, 0, 0, 0)
  {
  }

  lemma UnknownDelta(now: Time, parse: string -> Option<Time>)
    ensures var delta := c => ContainerDelta(c, now, parse);
            delta(ContainerView(Success(map[]), Success(TaskView(Success(Unknown)))))
            == Stats(0, 0, 0, 0, 0, 1, 0, 0)
  {
  }

  lemma StatusErrorDelta(now: Time, parse: string -> Option<Time>)
    ensures var delta := c => ContainerDelta(c, now, parse);
            delta(ContainerView(Success(map[]), Success(TaskView(Failure(Message("unit-test"))))))
            == Stats(0, 0, 0, 0, 0, 0, 0, 1)
  {
  }

  lemma TaskErrorDelta(now: Time, parse: string -> Option<Time>)
    ensures var delta := c => ContainerDelta(c, now, parse);
            delta(ContainerView(Success(map[]), Failure(Message("unit-test"))))
            == Stats(0, 0, 0, 0, 0, 0, 0, 1)
  {
    assert !IsNotFound(Message("unit-test"));
  }

  lemma TaskNotFoundDelta(now: Time, parse: string -> Option<Time>)
    ensures var delta := c => ContainerDelta(c, now, parse);
            delta(ContainerView(Success(map[]), Failure(NotFound)))
            == Stats(0, 0, 0, 0, 0, 0, 0, 0)
  {
  }

  lemma PausingDelta(now: Time, parse: string -> Option<Time>)
    ensures var delta := c => ContainerDelta(c, now, parse);
            delta(ContainerView(Success(map[]), Success(TaskView(Success(Pausing)))))
            == Stats(0, 0, 0, 0, 1, 0, 0, 0)
  {
  }

  lemma PausedDelta(now: Time, parse: string -> Option<Time>)
    ensures var delta := c => ContainerDelta(c, now, parse);
            delta(ContainerView(Success(map[]), Success(TaskView(Success(Paused)))))
            == Stats(0, 0, 0, 1, 0, 0, 0, 0)
  {
  }

  /** Under the test's clock every mock container contributes what the test expects. */
  lemma MockDeltas(now: Time, parse: string -> Option<Time>, past: string, future: string)
    requires TestClock(now, parse, past, future)
    ensures MeetsExpectation(c => ContainerDelta(c, now, parse), past, future)
  {
    RunningDelta(now, parse);
    PassedDeadlineDelta(now, parse, past);
    MalformedDeadlineDelta(now, parse);
    FutureDeadlineDelta(now, parse, future);
    UnknownDelta(now, parse);
    StatusErrorDelta(now, parse);
    TaskErrorDelta(now, parse);
    TaskNotFoundDelta(now, parse);
    PausingDelta(now, parse);
    PausedDelta(now, parse);
  }

  // The running total after each mock container, for any per-container
  // contribution that meets the expectation.

  lemma SumAfter1(delta: ContainerView -> Stats, past: string, future: string)
    requires MeetsExpectation(delta, past, future)
    ensures SumOf(MockContainers(1, past, future), delta) == Stats(1, 0, 0, 0, 0, 0, 0, 0)
  {
    SumOfSnoc(MockContainers(0, past, future), MockContainer(1, past, future), delta);
  }

  lemma SumAfter2(delta: ContainerView -> Stats, past: string, future: string)
    requires MeetsExpectation(delta, past, future)
    ensures SumOf(MockContainers(2, past, future), delta) == Stats(1, 0, 1, 0, 0, 0, 1, 0)
  {
    SumAfter1(delta, past, future);
    SumOfSnoc(MockContainers(1, past, future), MockContainer(2, past, future), delta);
  }

  lemma SumAfter3(delta: ContainerView -> Stats, past: string, future: string)
    requires MeetsExpectation(delta, past, future)
    ensures SumOf(MockContainers(3, past, future), delta) == Stats(1, 1, 1, 0, 0, 0, 1, 1)
  {
    SumAfter2(delta, past, future);
    SumOfSnoc(MockContainers(2, past, future), MockContainer(3, past, future), delta);
  }

  lemma SumAfter4(delta: ContainerView -> Stats, past: string, future: string)
    requires MeetsExpectation(delta, past, future)
    ensures SumOf(MockContainers(4, past, future), delta) == Stats(2, 1, 1, 0, 0, 0, 1, 1)
  {
    SumAfter3(delta, past, future);
    SumOfSnoc(MockContainers(3, past, future), MockContainer(4, past, future), delta);
  }

  lemma SumAfter5(delta: ContainerView -> Stats, past: string, future: string)
    requires MeetsExpectation(delta, past, future)
    ensures SumOf(MockContainers(5, past, future), delta) == Stats(2, 1, 1, 0, 0, 1, 1, 1)
  {
    SumAfter4(delta, past, future);
    SumOfSnoc(MockContainers(4, past, future), MockContainer(5, past, future), delta);
  }

  lemma SumAfter6(delta: ContainerView -> Stats, past: string, future: string)
    requires MeetsExpectation(delta, past, future)
    ensures SumOf(MockContainers(6, past, future), delta) == Stats(2, 1, 1, 0, 0, 1, 1, 2)
  {
    SumAfter5(delta, past, future);
    SumOfSnoc(MockContainers(5, past, future), MockContainer(6, past, future), delta);
  }

  lemma SumAfter7(delta: ContainerView -> Stats, past: string, future: string)
    requires MeetsExpectation(delta, past, future)
    ensures SumOf(MockContainers(7, past, future), delta) == Stats(2, 1, 1, 0, 0, 1, 1, 3)
  {
    SumAfter6(delta, past, future);
    SumOfSnoc(MockContainers(6, past, future), MockContainer(7, past, future), delta);
  }

  lemma SumAfter8(delta: ContainerView -> Stats, past: string, future: string)
    requires MeetsExpectation(delta, past, future)
    ensures SumOf(MockContainers(8, past, future), delta) == Stats(2, 1, 1, 0, 0, 1, 1, 3)
  {
    SumAfter7(delta, past, future);
    SumOfSnoc(MockContainers(7, past, future), MockContainer(8, past, future), delta);
  }

  lemma SumAfter9(delta: ContainerView -> Stats, past: string, future: string)
    requires MeetsExpectation(delta, past, future)
    ensures SumOf(MockContainers(9, past, future), delta) == Stats(2, 1, 1, 0, 1, 1, 1, 3)
  {
    SumAfter8(delta, past, future);
    SumOfSnoc(MockContainers(8, past, future), MockContainer(9, past, future), delta);
  }

  lemma SumAfter10(delta: ContainerView -> Stats, past: string, future: string)
    requires MeetsExpectation(delta, past, future)
    ensures SumOf(MockContainers(10, past, future), delta) == Stats(2, 1, 1, 1, 1, 1, 1, 3)
  {
    SumAfter9(delta, past, future);
    SumOfSnoc(MockContainers(9, past, future), MockContainer(10, past, future), delta);
  }

  /** Test_processContainers: the expected Stats of the ten mock containers. */
  lemma TestVectorTally(now: Time, parse: string -> Option<Time>, past: string, future: string)
    requires TestClock(now, parse, past, future)
    ensures Tally(MockContainers(10, past, future), now, parse)
            == Stats(running := 2, created := 1, stopped := 1, paused := 1, pausing := 1, unknown := 1,
                     deadlineExceeded := 1, errors := 3)
  {
    MockDeltas(now, parse, past, future);
    SumAfter10(c => ContainerDelta(c, now, parse), past, future);
  }
}
