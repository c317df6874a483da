/** The behaviours the repository's own test suite checks, replayed on the class
    model against a scripted server. */
module TrilogyAuroraScenarios {
  import opened Trilogy
  import opened Trace
  import opened TrilogyAurora
  import opened TrilogyAuroraProperties

  const Failover: Reply := Err(DatabaseError(Some(FailoverMessage)))

  /** Options with `aurora_max_retry: max` and `aurora_disconnect_on_readonly: disconnect`. */
  function AuroraOptions(max: int, disconnect: bool): Options {
    Options(Some(max), disconnect, map["host" := "127.0.0.1", "username" := "root"])
  }

  /** A server that is read-only for its first `failovers` queries and then answers
      `rows`, whose `close` raises, and which accepts every connection. */
  function ReadOnlyFor(failovers: nat, rows: Rows): Oracle {
    Oracle(q => if q < failovers then Failover else Ok(rows), _ => true, _ => None)
  }

  /** A server stuck in read-only mode, with `aurora_max_retry: 10`: the query is
      run eleven times, the client reconnects ten times, sleeps on the schedule
      0, 1.5, 3, 4.5, 6, 7.5, 9, 10, 10, 10, and the read-only error is raised. */
  method StuckServerRetriesTenTimes(sql: string) returns (r: Reply, log: seq<Event>)
    ensures r == Failover
    ensures Count(log, Queries) == 11 && Count(log, Reconnects) == 10
    ensures Delays(log) == [0.0, 1.5, 3.0, 4.5, 6.0, 7.5, 9.0, 10.0, 10.0, 10.0]
  {
    var world := new World(ReadOnlyFor(100, []));
    var made := Client.New(world, AuroraOptions(10, false));
    var client := made.value;
    var start := world.log;
    assert world.cursor == Cursor(0, 0, 1);
    assert forall q :: 0 <= q <= 10 ==> world.oracle.replyAt(q) == Failover;
    assert forall c :: 1 <= c < 11 ==> world.oracle.refusalAt(c).None?;
    r := client.Query(sql);
    TenFailovers(world.oracle, AuroraOptions(10, false).settings, sql, Cursor(0, 0, 1));
    log := world.log[|start|..];
  }

  /** A healthy server: the query is run once on the raw connection and its rows
      are returned. */
  method HealthyServerAnswersOnce(sql: string, rows: Rows) returns (r: Reply, log: seq<Event>)
    ensures r == Ok(rows) && log == [Queried(sql)]
  {
    var world := new World(ReadOnlyFor(0, rows));
    var made := Client.New(world, AuroraOptions(10, false));
    var client := made.value;
    var start := world.log;
    r := client.Query(sql);
    log := world.log[|start|..];
  }

  /** A `Trilogy::Error` that is not a read-only error ("Unknown column") is raised
      after one query, without a reconnection. */
  method UnknownColumnIsRaisedAtOnce(sql: string) returns (r: Reply, log: seq<Event>)
    ensures r == Err(DatabaseError(Some("Unknown column 'hogehoge' in 'field list'")))
    ensures log == [Queried(sql)]
  {
    var unknown := Err(DatabaseError(Some("Unknown column 'hogehoge' in 'field list'")));
    var world := new World(Oracle(_ => unknown, _ => false, _ => None));
    var made := Client.New(world, AuroraOptions(10, false));
    var client := made.value;
    var start := world.log;
    UnknownColumnIsNotReadOnly();
    r := client.Query(sql);
    log := world.log[|start|..];
  }

  /** Any other `StandardError` is raised after one query, without a reconnection. */
  method StandardErrorIsRaisedAtOnce(sql: string) returns (r: Reply, log: seq<Event>)
    ensures r == Err(OtherError("StandardError")) && log == [Queried(sql)]
  {
    var world := new World(Oracle(_ => Err(OtherError("StandardError")), _ => false, _ => None));
    var made := Client.New(world, AuroraOptions(10, false));
    var client := made.value;
    var start := world.log;
    r := client.Query(sql);
    log := world.log[|start|..];
  }

  /** With `aurora_disconnect_on_readonly: true` the client warns, closes the
      connection once and raises the read-only error; it neither sleeps nor
      reconnects. */
  method DisconnectModeClosesOnce(sql: string) returns (r: Reply, log: seq<Event>)
    ensures r == Failover
    ensures log == [Queried(sql), Warned(ClosingConnection), Closed(true)]
  {
    var world := new World(ReadOnlyFor(100, []));
    var made := Client.New(world, AuroraOptions(10, true));
    var client := made.value;
    var start := world.log;
    FailoverMessageIsReadOnly();
    r := client.Query(sql);
    log := world.log[|start|..];
  }

  /** `reconnect!` closes the old connection, and installs a new one with the same
      options even when `close` raises. */
  method ReconnectAfterFailedClose() returns (changed: bool, failure: Option<Error>, log: seq<Event>)
    ensures changed && failure.None?
    ensures log == [Closed(true), Connected(AuroraOptions(10, false), true)]
  {
    var world := new World(ReadOnlyFor(0, []));
    var made := Client.New(world, AuroraOptions(10, false));
    var client := made.value;
    var before := client.trilogy;
    var start := world.log;
    failure := client.Reconnect();
    changed := client.trilogy != before;
    log := world.log[|start|..];
  }

  /** The retry count starts again at every call: with `aurora_max_retry: 1` and a
      server read-only for three queries, the first call retries once and raises,
      and the second call still retries once and gets the rows. */
  method SecondCallGetsFreshBudget(sql: string, rows: Rows) returns (first: Reply, second: Reply)
    ensures first == Failover && second == Ok(rows)
  {
    var world := new World(ReadOnlyFor(3, rows));
    var made := Client.New(world, AuroraOptions(1, false));
    var client := made.value;
    FailoverMessageIsReadOnly();
    first := client.Query(sql);
    assert world.cursor == Cursor(2, 1, 2);
    second := client.Query(sql);
  }
}
