/** The fleet stats aggregator (containerd_stats.go): every container that
    carries the owner label is examined once; its deadline label and its
    task's status are tallied into the eight counters. */
module ContainerdStats {
  import opened Common
  import opened StatsRecord
  import opened ContainerdExecution

  /** The listing filter: containers whose owner label is "chains". */
  const ContainersFilter: string := "labels.\"" + OwnerLabel + "\"==" + Chains

  /** The filter is the containerd filter expression labels."wk/owner"==chains. */
  lemma ContainersFilterText()
    ensures ContainersFilter == "labels.\"wk/owner\"==chains"
  {
  }

  /** containerd.ProcessStatus: the six statuses the tally knows, and any other
      status string. */
  datatype ProcessStatus = Running | Created | Stopped | Paused | Pausing | Unknown | Unlisted(name: string)

  /** A task as the tally sees it: what its Status call answers. */
  datatype TaskView = TaskView(status: Result<ProcessStatus, Error>)

  /** A listed container as the tally sees it: what its Labels call and its
      Task call answer. */
  datatype ContainerView = ContainerView(labels: Result<map<string, string>, Error>, task: Result<TaskView, Error>)

  // ---------------------------------------------------------------------------
  // How a container is classified

  /** The labels were read, hold a deadline, and it parses to a time before
      `now`. `parse` is time.Parse with the RFC 3339 layout, None standing
      for its error. */
  predicate DeadlinePassed(labels: Result<map<string, string>, Error>, now: Time, parse: string -> Option<Time>)
  {
    && labels.Success? && DeadlineLabel in labels.value
    && parse(labels.value[DeadlineLabel]).Some?
    && now > parse(labels.value[DeadlineLabel]).value
  }

  /** The label branch found an anomaly: the labels could not be read, or the
      deadline label does not parse. */
  predicate LabelAnomaly(labels: Result<map<string, string>, Error>, parse: string -> Option<Time>)
  {
    || labels.Failure?
    || (DeadlineLabel in labels.value && parse(labels.value[DeadlineLabel]).None?)
  }

  /** The task was found and reports `status`. */
  predicate HasStatus(task: Result<TaskView, Error>, status: ProcessStatus)
  {
    task.Success? && task.value.status.Success? && task.value.status.value == status
  }

  /** The task branch found an anomaly: a lookup error other than NotFound, or
      a status error. */
  predicate TaskAnomaly(task: Result<TaskView, Error>)
  {
    || (task.Failure? && !IsNotFound(task.error))
    || (task.Success? && task.value.status.Failure?)
  }

  function Indicator(b: bool): nat { if b then 1 else 0 }

  /** What the label branch of the loop adds: a read error is one error; a
      deadline label that parses to a time before now is one exceeded deadline,
      one that does not parse is one error; a missing label or a deadline not
      yet passed adds nothing. */
  function LabelDelta(labels: Result<map<string, string>, Error>, now: Time, parse: string -> Option<Time>): Stats
  {
    match labels
    case Failure(_) => Zero.(errors := 1)
    case Success(m) =>
      if DeadlineLabel !in m then Zero
      else match parse(m[DeadlineLabel])
        case Some(deadline) => if now > deadline then Zero.(deadlineExceeded := 1) else Zero
        case None => Zero.(errors := 1)
  }

  /** What the task branch of the loop adds: a NotFound lookup adds nothing,
      another lookup error or a status error is one error, each of the six
      statuses adds one to its own counter and any other status adds nothing. */
  function TaskDelta(task: Result<TaskView, Error>): Stats
  {
    match task
    case Failure(e) => if IsNotFound(e) then Zero else Zero.(errors := 1)
    case Success(t) =>
      match t.status
      case Failure(_) => Zero.(errors := 1)
      case Success(status) =>
        match status
        case Stopped => Zero.(stopped := 1)
        case Running => Zero.(running := 1)
        case Created => Zero.(created := 1)
        case Paused => Zero.(paused := 1)
        case Pausing => Zero.(pausing := 1)
        case Unknown => Zero.(unknown := 1)
        case Unlisted(_) => Zero
  }

  /** Both branches run for every container, independently. */
  function ContainerDelta(c: ContainerView, now: Time, parse: string -> Option<Time>): Stats
  {
    Add(LabelDelta(c.labels, now, parse), TaskDelta(c.task))
  }

  /** The sum of `delta` over a sequence of containers. */
  function SumOf(cs: seq<ContainerView>, delta: ContainerView -> Stats): Stats
  {
    if |cs| == 0 then Zero else Add(SumOf(cs[..|cs| - 1], delta), delta(cs[|cs| - 1]))
  }

  /** The tally of a sequence of containers: the sum of their contributions. */
  function Tally(cs: seq<ContainerView>, now: Time, parse: string -> Option<Time>): Stats
  {
    SumOf(cs, c => ContainerDelta(c, now, parse))
  }

  // ---------------------------------------------------------------------------
  // The scan itself

  /** The loop of getContainerdStats over the listed containers: the label
      branch, then the task branch, for each container in turn. */
  method ProcessContainers(containers: seq<ContainerView>, now: Time, parse: string -> Option<Time>)
    returns (stats: Stats)
    ensures stats == Tally(containers, now, parse)
  {
    stats := Zero;
    for i := 0 to |containers|
      invariant stats == Tally(containers[..i], now, parse)
    {
      var container := containers[i];
      ghost var before := stats;
      stats := CountLabels(stats, container.labels, now, parse);
      stats := CountTask(stats, container.task);
      AddAssociative(before, LabelDelta(container.labels, now, parse), TaskDelta(container.task));
      TallyStep(containers, i, now, parse);
    }
    assert containers[..|containers|] == containers;
  }

  /** The label branch of the loop body, applied to the running tally: a label
      read error is an error; a deadline label that parses to a time before
      now is an exceeded deadline, one that does not parse is an error. */
  method CountLabels(stats: Stats, labels: Result<map<string, string>, Error>, now: Time,
                     parse: string -> Option<Time>) returns (r: Stats)
    ensures r == Add(stats, LabelDelta(labels, now, parse))
  {
    r := stats;
    match labels {
      case Success(m) =>
        if DeadlineLabel in m {
          var deadlineTime := parse(m[DeadlineLabel]);
          if deadlineTime.Some? && now > deadlineTime.value {
            r := r.(deadlineExceeded := r.deadlineExceeded + 1);
          } else if deadlineTime.None? {
            r := r.(errors := r.errors + 1);
          }
        }
      case Failure(_) =>
        r := r.(errors := r.errors + 1);
    }
  }

  /** The task branch of the loop body, applied to the running tally: a
      NotFound lookup is skipped, any other lookup error or a status error is
      an error, and the status switch increments the status's counter. */
  method CountTask(stats: Stats, task: Result<TaskView, Error>) returns (r: Stats)
    ensures r == Add(stats, TaskDelta(task))
  {
    r := stats;
    match task {
      case Success(t) =>
        match t.status {
          case Success(status) =>
            match status {
              case Stopped => r := r.(stopped := r.stopped + 1);
              case Running => r := r.(running := r.running + 1);
              case Created => r := r.(created := r.created + 1);
              case Paused => r := r.(paused := r.paused + 1);
              case Pausing => r := r.(pausing := r.pausing + 1);
              case Unknown => r := r.(unknown := r.unknown + 1);
              case Unlisted(_) =>
            }
          case Failure(_) =>
            r := r.(errors := r.errors + 1);
        }
      case Failure(e) =>
        if !IsNotFound(e) {
          r := r.(errors := r.errors + 1);
        }
    }
  }

  /** What getContainerdStats returns for the given answer of the Containers
      call to the owner filter: on a listing error, the zero Stats and the
      error wrapped; otherwise the tally and no error. */
  function ContainerdStatsOf(list: string -> Result<seq<ContainerView>, Error>, now: Time,
                             parse: string -> Option<Time>): (Stats, Option<Error>)
  {
    match list(ContainersFilter)
    case Failure(e) => (Zero, Some(Wrapped("error getting stats", e)))
    case Success(cs) => (Tally(cs, now, parse), None)
  }

  /** getContainerdStats: lists the containers with the owner label, then
      scans them. `list` is the client's Containers call. */
  method GetContainerdStats(list: string -> Result<seq<ContainerView>, Error>, now: Time,
                            parse: string -> Option<Time>)
    returns (stats: Stats, err: Option<Error>)
    ensures (stats, err) == ContainerdStatsOf(list, now, parse)
    ensures list(ContainersFilter).Failure? ==>
              stats == Zero && err == Some(Wrapped("error getting stats", list(ContainersFilter).error))
    ensures list(ContainersFilter).Success? ==>
              err == None && stats == Tally(list(ContainersFilter).value, now, parse)
  {
    var containers := list(ContainersFilter);
    if containers.Failure? {
      return Zero, Some(Wrapped("error getting stats", containers.error));
    }
    stats := ProcessContainers(containers.value, now, parse);
    err := None;
  }

  // ---------------------------------------------------------------------------
  // Properties of one container's contribution

  /** The label branch adds one to DeadlineExceeded exactly when the deadline
      has passed and one to Errors exactly when the labels are anomalous, and
      nothing else. */
  lemma LabelClasses(labels: Result<map<string, string>, Error>, now: Time, parse: string -> Option<Time>)
    ensures LabelDelta(labels, now, parse)
            == Zero.(deadlineExceeded := Indicator(DeadlinePassed(labels, now, parse)),
                     errors := Indicator(LabelAnomaly(labels, parse)))
  {
    match labels
    case Failure(_) =>
    case Success(m) =>
      if DeadlineLabel in m {
        match parse(m[DeadlineLabel])
        case Some(deadline) =>
        case None =>
      }
  }

  /** The task branch adds one to a status counter exactly when the task has
      that status and one to Errors exactly when the task is anomalous, and
      nothing else. */
  lemma TaskClasses(task: Result<TaskView, Error>)
    ensures TaskDelta(task)
            == Stats(running := Indicator(HasStatus(task, Running)),
                     created := Indicator(HasStatus(task, Created)),
                     stopped := Indicator(HasStatus(task, Stopped)),
                     paused := Indicator(HasStatus(task, Paused)),
                     pausing := Indicator(HasStatus(task, Pausing)),
                     unknown := Indicator(HasStatus(task, Unknown)),
                     deadlineExceeded := 0,
                     errors := Indicator(TaskAnomaly(task)))
  {
    match task
    case Failure(_) =>
    case Success(t) =>
      match t.status
      case Failure(_) =>
      case Success(status) =>
        match status
        case Stopped =>
        case Running =>
        case Created =>
        case Paused =>
        case Pausing =>
        case Unknown =>
        case Unlisted(_) =>
  }

  /** Each counter of a container's contribution is the indicator of its class;
      Errors is the sum of the label and the task indicators. */
  lemma ContainerClasses(c: ContainerView, now: Time, parse: string -> Option<Time>)
    ensures var d := ContainerDelta(c, now, parse);
      && d.running == Indicator(HasStatus(c.task, Running))
      && d.created == Indicator(HasStatus(c.task, Created))
      && d.stopped == Indicator(HasStatus(c.task, Stopped))
      && d.paused == Indicator(HasStatus(c.task, Paused))
      && d.pausing == Indicator(HasStatus(c.task, Pausing))
      && d.unknown == Indicator(HasStatus(c.task, Unknown))
      && d.deadlineExceeded == Indicator(DeadlinePassed(c.labels, now, parse))
      && d.errors == Indicator(LabelAnomaly(c.labels, parse)) + Indicator(TaskAnomaly(c.task))
  {
    LabelClasses(c.labels, now, parse);
    TaskClasses(c.task);
    ContainerErrors(c, now, parse);
  }

  lemma LabelErrors(labels: Result<map<string, string>, Error>, now: Time, parse: string -> Option<Time>)
    ensures LabelDelta(labels, now, parse).errors == Indicator(LabelAnomaly(labels, parse))
  {
    LabelClasses(labels, now, parse);
  }

  lemma TaskErrors(task: Result<TaskView, Error>)
    ensures TaskDelta(task).errors == Indicator(TaskAnomaly(task))
  {
    TaskClasses(task);
  }

  /** A container adds one error for anomalous labels and one for an anomalous task. */
  lemma ContainerErrors(c: ContainerView, now: Time, parse: string -> Option<Time>)
    ensures ContainerDelta(c, now, parse).errors
            == Indicator(LabelAnomaly(c.labels, parse)) + Indicator(TaskAnomaly(c.task))
  {
    LabelErrors(c.labels, now, parse);
    TaskErrors(c.task);
    AddFields(LabelDelta(c.labels, now, parse), TaskDelta(c.task));
  }

  /** A container contributes at most two: at most one from each branch. */
  lemma ContainerDeltaBounds(c: ContainerView, now: Time, parse: string -> Option<Time>)
    ensures NonNegative(ContainerDelta(c, now, parse)) && Total(ContainerDelta(c, now, parse)) <= 2
  {
    LabelBounds(c.labels, now, parse);
    TaskBounds(c.task);
    AddTotal(LabelDelta(c.labels, now, parse), TaskDelta(c.task));
  }

  lemma LabelBounds(labels: Result<map<string, string>, Error>, now: Time, parse: string -> Option<Time>)
    ensures NonNegative(LabelDelta(labels, now, parse)) && Total(LabelDelta(labels, now, parse)) <= 1
  {
    match labels
    case Failure(_) =>
    case Success(m) =>
      if DeadlineLabel in m {
        match parse(m[DeadlineLabel])
        case Some(deadline) =>
        case None =>
      }
  }

  lemma TaskBounds(task: Result<TaskView, Error>)
    ensures NonNegative(TaskDelta(task)) && Total(TaskDelta(task)) <= 1
  {
    match task
    case Failure(_) =>
    case Success(t) =>
      match t.status
      case Failure(_) =>
      case Success(status) =>
  }

  // ---------------------------------------------------------------------------
  // Properties of the tally

  lemma {:induction false} SumOfBounds(cs: seq<ContainerView>, delta: ContainerView -> Stats)
    requires forall c :: NonNegative(delta(c)) && Total(delta(c)) <= 2
    ensures NonNegative(SumOf(cs, delta)) && Total(SumOf(cs, delta)) <= 2 * |cs|
  {
    if |cs| > 0 {
      SumOfBounds(cs[..|cs| - 1], delta);
      AddTotal(SumOf(cs[..|cs| - 1], delta), delta(cs[|cs| - 1]));
    }
  }

  /** Each counter is non-negative, and together they count at most two per
      container. */
  lemma TallyBounds(cs: seq<ContainerView>, now: Time, parse: string -> Option<Time>)
    ensures NonNegative(Tally(cs, now, parse))
    ensures Total(Tally(cs, now, parse)) <= 2 * |cs|
  {
    var delta := c => ContainerDelta(c, now, parse);
    forall c ensures NonNegative(delta(c)) && Total(delta(c)) <= 2 {
      ContainerDeltaBounds(c, now, parse);
    }
    SumOfBounds(cs, delta);
  }

  /** One more container adds its contribution. */
  lemma TallyStep(cs: seq<ContainerView>, i: nat, now: Time, parse: string -> Option<Time>)
    requires i < |cs|
    ensures Tally(cs[..i + 1], now, parse) == Add(Tally(cs[..i], now, parse), ContainerDelta(cs[i], now, parse))
  {
    assert cs[..i + 1][..i] == cs[..i];
  }

  /** The number of containers of `cs` that satisfy `p`. */
  function CountIf(cs: seq<ContainerView>, p: ContainerView -> bool): nat
  {
    if |cs| == 0 then 0 else CountIf(cs[..|cs| - 1], p) + Indicator(p(cs[|cs| - 1]))
  }

  /** The classes the counters count. */
  function StatusClass(status: ProcessStatus): ContainerView -> bool
  {
    (c: ContainerView) => HasStatus(c.task, status)
  }

  function DeadlineClass(now: Time, parse: string -> Option<Time>): ContainerView -> bool
  {
    (c: ContainerView) => DeadlinePassed(c.labels, now, parse)
  }

  function LabelAnomalyClass(parse: string -> Option<Time>): ContainerView -> bool
  {
    (c: ContainerView) => LabelAnomaly(c.labels, parse)
  }

  function TaskAnomalyClass(): ContainerView -> bool
  {
    (c: ContainerView) => TaskAnomaly(c.task)
  }

  function NoClass(): ContainerView -> bool
  {
    (c: ContainerView) => false
  }

  lemma {:induction false} CountNone(cs: seq<ContainerView>)
    ensures CountIf(cs, NoClass()) == 0
  {
    if |cs| > 0 {
      CountNone(cs[..|cs| - 1]);
    }
  }

  /** A counter to which every container adds one for each of `p` and `q` it
      satisfies ends up counting the containers in `p` plus those in `q`. */
  lemma {:induction false} SumOfCounts(cs: seq<ContainerView>, delta: ContainerView -> Stats,
                                       counter: Stats -> int, p: ContainerView -> bool, q: ContainerView -> bool)
    requires forall a, b :: counter(Add(a, b)) == counter(a) + counter(b)
    requires counter(Zero) == 0
    requires forall c :: counter(delta(c)) == Indicator(p(c)) + Indicator(q(c))
    ensures counter(SumOf(cs, delta)) == CountIf(cs, p) + CountIf(cs, q)
  {
    if |cs| > 0 {
      SumOfCounts(cs[..|cs| - 1], delta, counter, p, q);
    }
  }

  /** Each status counter counts the containers whose task has that status,
      DeadlineExceeded those whose deadline has passed, and Errors the label
      anomalies plus the task anomalies (a container whose labels and task
      both fail adds two). */
  lemma TallyCounts(cs: seq<ContainerView>, now: Time, parse: string -> Option<Time>)
    ensures var s := Tally(cs, now, parse);
      && s.running == CountIf(cs, StatusClass(Running))
      && s.created == CountIf(cs, StatusClass(Created))
      && s.stopped == CountIf(cs, StatusClass(Stopped))
      && s.paused == CountIf(cs, StatusClass(Paused))
      && s.pausing == CountIf(cs, StatusClass(Pausing))
      && s.unknown == CountIf(cs, StatusClass(Unknown))
      && s.deadlineExceeded == CountIf(cs, DeadlineClass(now, parse))
      && s.errors == CountIf(cs, LabelAnomalyClass(parse)) + CountIf(cs, TaskAnomalyClass())
  {
    var delta := (c: ContainerView) => ContainerDelta(c, now, parse);
    forall c: ContainerView {
      ContainerClasses(c, now, parse);
    }
    CountNone(cs);
    SumOfCounts(cs, delta, (s: Stats) => s.running, StatusClass(Running), NoClass());
    SumOfCounts(cs, delta, (s: Stats) => s.created, StatusClass(Created), NoClass());
    SumOfCounts(cs, delta, (s: Stats) => s.stopped, StatusClass(Stopped), NoClass());
    SumOfCounts(cs, delta, (s: Stats) => s.paused, StatusClass(Paused), NoClass());
    SumOfCounts(cs, delta, (s: Stats) => s.pausing, StatusClass(Pausing), NoClass());
    SumOfCounts(cs, delta, (s: Stats) => s.unknown, StatusClass(Unknown), NoClass());
    SumOfCounts(cs, delta, (s: Stats) => s.deadlineExceeded, DeadlineClass(now, parse), NoClass());
    SumOfCounts(cs, delta, (s: Stats) => s.errors, LabelAnomalyClass(parse), TaskAnomalyClass());
  }

  lemma {:induction false} CountIfAppend(a: seq<ContainerView>, b: seq<ContainerView>, p: ContainerView -> bool)
    ensures CountIf(a + b, p) == CountIf(a, p) + CountIf(b, p)
    decreases |b|
  {
    if |b| == 0 {
      assert a + b == a;
    } else {
      assert (a + b)[..|a + b| - 1] == a + b[..|b| - 1];
      CountIfAppend(a, b[..|b| - 1], p);
    }
  }

  /** Removing the element at position j takes its indicator out. */
  lemma CountIfRemove(cs: seq<ContainerView>, j: nat, p: ContainerView -> bool)
    requires j < |cs|
    ensures CountIf(cs, p) == CountIf(cs[..j] + cs[j + 1..], p) + Indicator(p(cs[j]))
  {
    var pre, x, post := cs[..j], cs[j], cs[j + 1..];
    assert cs == (pre + [x]) + post;
    CountIfAppend(pre + [x], post, p);
    assert (pre + [x])[..|pre|] == pre;
    CountIfAppend(pre, post, p);
  }

  lemma MultisetRemove<T>(s: seq<T>, j: nat)
    requires j < |s|
    ensures multiset(s[..j] + s[j + 1..]) == multiset(s) - multiset{s[j]}
  {
    assert s == s[..j] + [s[j]] + s[j + 1..];
  }

  /** A count does not depend on the order of the containers. */
  lemma {:induction false} CountIfPermutation(a: seq<ContainerView>, b: seq<ContainerView>, p: ContainerView -> bool)
    requires multiset(a) == multiset(b)
    ensures CountIf(a, p) == CountIf(b, p)
    decreases |a|
  {
    if |a| == 0 {
      assert b == [];
    } else {
      var last := a[|a| - 1];
      MultisetRemove(a, |a| - 1);
      assert a[..|a| - 1] + a[|a|..] == a[..|a| - 1];
      assert last in multiset(b);
      var j :| 0 <= j < |b| && b[j] == last;
      MultisetRemove(b, j);
      CountIfPermutation(a[..|a| - 1], b[..j] + b[j + 1..], p);
      CountIfRemove(b, j, p);
    }
  }

  /** The tally does not depend on the order in which the containers are listed. */
  lemma TallyPermutation(a: seq<ContainerView>, b: seq<ContainerView>, now: Time, parse: string -> Option<Time>)
    requires multiset(a) == multiset(b)
    ensures Tally(a, now, parse) == Tally(b, now, parse)
  {
    TallyCounts(a, now, parse);
    TallyCounts(b, now, parse);
    CountIfPermutation(a, b, StatusClass(Running));
    CountIfPermutation(a, b, StatusClass(Created));
    CountIfPermutation(a, b, StatusClass(Stopped));
    CountIfPermutation(a, b, StatusClass(Paused));
    CountIfPermutation(a, b, StatusClass(Pausing));
    CountIfPermutation(a, b, StatusClass(Unknown));
    CountIfPermutation(a, b, DeadlineClass(now, parse));
    CountIfPermutation(a, b, LabelAnomalyClass(parse));
    CountIfPermutation(a, b, TaskAnomalyClass());
  }
}
