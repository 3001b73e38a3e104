/** The Stats record (stats.go): eight independent integer counters. */
module StatsRecord {

  datatype Stats = Stats(
    running: int,
    created: int,
    stopped: int,
    paused: int,
    pausing: int,
    unknown: int,
    deadlineExceeded: int,
    errors: int)

  /** The zero value Stats{}. */
  const Zero: Stats := Stats(0, 0, 0, 0, 0, 0, 0, 0)

  predicate NonNegative(s: Stats)
  {
    && s.running >= 0 && s.created >= 0 && s.stopped >= 0 && s.paused >= 0
    && s.pausing >= 0 && s.unknown >= 0 && s.deadlineExceeded >= 0 && s.errors >= 0
  }

  /** Counter-wise sum of two tallies. */
  function Add(a: Stats, b: Stats): Stats
  {
    Stats(a.running + b.running, a.created + b.created, a.stopped + b.stopped, a.paused + b.paused,
          a.pausing + b.pausing, a.unknown + b.unknown, a.deadlineExceeded + b.deadlineExceeded,
          a.errors + b.errors)
  }

  /** The six task-status counters together. */
  function StatusTotal(s: Stats): int
  {
    s.running + s.created + s.stopped + s.paused + s.pausing + s.unknown
  }

  /** All eight counters together. */
  function Total(s: Stats): int
  {
    StatusTotal(s) + s.deadlineExceeded + s.errors
  }

  lemma AddFields(a: Stats, b: Stats)
    ensures var s := Add(a, b);
      && s.running == a.running + b.running && s.created == a.created + b.created
      && s.stopped == a.stopped + b.stopped && s.paused == a.paused + b.paused
      && s.pausing == a.pausing + b.pausing && s.unknown == a.unknown + b.unknown
      && s.deadlineExceeded == a.deadlineExceeded + b.deadlineExceeded && s.errors == a.errors + b.errors
  {
  }

  lemma AddTotal(a: Stats, b: Stats)
    ensures Total(Add(a, b)) == Total(a) + Total(b)
    ensures NonNegative(a) && NonNegative(b) ==> NonNegative(Add(a, b))
  {
  }

  lemma AddAssociative(a: Stats, b: Stats, c: Stats)
    ensures Add(Add(a, b), c) == Add(a, Add(b, c))
  {
  }
}

/** GetStats (stats.go): the client's dynamic type selects the backend. */
module StatsQuery {
  import opened Common
  import opened StatsRecord
  import opened ContainerdBackend
  import opened ContainerdStats

  /** GetStats: a Containerd value is scanned with the containerd aggregator;
      any other client gets the zero Stats and no error. `list` is the
      Containers call of that Containerd value's client. */
  method GetStats(client: ClientValue, list: string -> Result<seq<ContainerView>, Error>,
                  now: Time, parse: string -> Option<Time>)
    returns (stats: Stats, err: Option<Error>)
    ensures client.ContainerdValue? ==> (stats, err) == ContainerdStatsOf(list, now, parse)
    ensures !client.ContainerdValue? ==> stats == Zero && err == None
  {
    match client {
      case ContainerdValue(_) =>
        stats, err := GetContainerdStats(list, now, parse);
      case _ =>
        stats, err := Zero, None;
    }
  }
}
