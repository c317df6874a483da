/** What `TrilogyAurora::Client#query` promises, stated over its specification
    `QueryEffect` and proved for every behaviour of the server. */
module TrilogyAuroraProperties {
  import opened Trilogy
  import opened Trace
  import opened TrilogyAurora

  // ---------------------------------------------------------------------------
  // The classification rule
  // ---------------------------------------------------------------------------

  /** `sub` occurs in `s` starting at offset `i`. */
  predicate OccursAt(s: string, sub: string, i: int) {
    0 <= i && i + |sub| <= |s| && s[i..i + |sub|] == sub
  }

  /** `Includes` is substring search: it holds exactly when `sub` occurs somewhere. */
  lemma {:induction false} IncludesIffOccurs(s: string, sub: string)
    ensures Includes(s, sub) <==> exists i :: OccursAt(s, sub, i)
    decreases |s|
  {
    if |sub| <= |s| {
      if s[..|sub|] == sub {
        assert OccursAt(s, sub, 0);
      } else {
        IncludesIffOccurs(s[1..], sub);
        if Includes(s[1..], sub) {
          var i :| OccursAt(s[1..], sub, i);
          assert s[i + 1..i + 1 + |sub|] == s[1..][i..i + |sub|];
          assert OccursAt(s, sub, i + 1);
        }
        assert s[0..0 + |sub|] == s[..|sub|];
        assert !OccursAt(s, sub, 0);
        forall i | OccursAt(s, sub, i) ensures OccursAt(s[1..], sub, i - 1) {
          assert s[1..][i - 1..i - 1 + |sub|] == s[i..i + |sub|];
        }
      }
    } else {
      forall i ensures !OccursAt(s, sub, i) {}
    }
  }

  /** The failover message the server sends (two literals joined with no space). */
  const FailoverMessage: string :=
    "ERROR 1290 (HY000): The MySQL server is running with the"
    + "--read-only"
    + " option so it cannot execute this statement"

  lemma FailoverMessageIsReadOnly()
    ensures IsReadOnlyError(DatabaseError(Some(FailoverMessage)))
  {
    var prefix := "ERROR 1290 (HY000): The MySQL server is running with the";
    var suffix := " option so it cannot execute this statement";
    assert FailoverMessage == prefix + ReadOnlyMarker + suffix;
    assert FailoverMessage[|prefix|..|prefix| + |ReadOnlyMarker|] == ReadOnlyMarker;
    assert OccursAt(FailoverMessage, ReadOnlyMarker, |prefix|);
    IncludesIffOccurs(FailoverMessage, ReadOnlyMarker);
  }

  /** A message without a dash cannot carry the marker; a nil message and an error
      that is not a `Trilogy::Error` never count as read-only. */
  lemma NotReadOnly(e: Error)
    requires e.DatabaseError? && e.message.Some? ==> '-' !in e.message.value
    ensures !IsReadOnlyError(e)
  {
    if e.DatabaseError? && e.message.Some? {
      var s := e.message.value;
      IncludesIffOccurs(s, ReadOnlyMarker);
      forall i ensures !OccursAt(s, ReadOnlyMarker, i) {
        if 0 <= i && i + |ReadOnlyMarker| <= |s| {
          assert s[i..i + |ReadOnlyMarker|][0] == s[i] != ReadOnlyMarker[0];
        }
      }
    }
  }

  lemma UnknownColumnIsNotReadOnly()
    ensures !IsReadOnlyError(DatabaseError(Some("Unknown column 'hogehoge' in 'field list'")))
  {
    NotReadOnly(DatabaseError(Some("Unknown column 'hogehoge' in 'field list'")));
  }

  // ---------------------------------------------------------------------------
  // The backoff schedule
  // ---------------------------------------------------------------------------

  /** The delays of retries number `from`, `from + 1`, …, `from + n - 1`. */
  function Schedule(from: int, n: nat): (ds: seq<real>)
    decreases n
    ensures |ds| == n
    ensures forall i :: 0 <= i < n ==> ds[i] == Backoff(from + i)
  {
    if n == 0 then [] else [Backoff(from)] + Schedule(from + 1, n - 1)
  }

  /** The first retry does not wait; each later one waits 1.5 seconds longer than
      the one before, until the wait reaches its ceiling of 10 seconds. */
  lemma BackoffGrowsThenSaturates(n: int)
    requires 1 <= n
    ensures Backoff(1) == 0.0
    ensures Backoff(n + 1) == if Backoff(n) + 1.5 < 10.0 then Backoff(n) + 1.5 else 10.0
    ensures n <= 7 ==> Backoff(n) == 1.5 * (n - 1) as real
    ensures 8 <= n ==> Backoff(n) == 10.0
  {
  }

  lemma TenRetriesSchedule()
    ensures Schedule(1, 10) == [0.0, 1.5, 3.0, 4.5, 6.0, 7.5, 9.0, 10.0, 10.0, 10.0]
  {
    var s := Schedule(1, 10);
    var expected := [0.0, 1.5, 3.0, 4.5, 6.0, 7.5, 9.0, 10.0, 10.0, 10.0];
    forall i | 0 <= i < 10 ensures s[i] == expected[i] {
      BackoffGrowsThenSaturates(1 + i);
    }
  }

  // ---------------------------------------------------------------------------
  // Counting short logs
  // ---------------------------------------------------------------------------

  function Bit(e: Event, k: Kind): nat {
    if Is(e, k) then 1 else 0
  }

  lemma {:induction false} CountOfThree(a: Event, b: Event, c: Event, k: Kind)
    ensures Count([a, b, c], k) == Bit(a, k) + Bit(b, k) + Bit(c, k)
  {
    assert [a, b, c][1..] == [b, c];
    assert [b, c][1..] == [c];
    assert Count([c], k) == Bit(c, k);
    assert Count([b, c], k) == Bit(b, k) + Bit(c, k);
  }

  lemma {:induction false} CountOfFive(s: seq<Event>, k: Kind)
    requires |s| == 5
    ensures Count(s, k) == Bit(s[0], k) + Bit(s[1], k) + Bit(s[2], k) + Bit(s[3], k) + Bit(s[4], k)
  {
    assert s[4..][1..] == [];
    assert Count(s[4..], k) == Bit(s[4], k);
    assert s[3..][1..] == s[4..];
    assert Count(s[3..], k) == Bit(s[3], k) + Bit(s[4], k);
    assert s[2..][1..] == s[3..];
    assert Count(s[2..], k) == Bit(s[2], k) + Bit(s[3], k) + Bit(s[4], k);
    assert s[1..][1..] == s[2..];
    assert Count(s[1..], k) == Bit(s[1], k) + Bit(s[2], k) + Bit(s[3], k) + Bit(s[4], k);
  }

  lemma {:induction false} DelaysOfStep(a: Event, b: Event, d: real, e: Event, f: Event)
    requires !a.Slept? && !b.Slept? && !e.Slept? && !f.Slept?
    ensures Delays([a, b, Slept(d), e, f]) == [d]
  {
    var s := [a, b, Slept(d), e, f];
    assert s[4..][1..] == [];
    assert Delays(s[4..]) == [];
    assert s[3..][1..] == s[4..];
    assert Delays(s[3..]) == [];
    assert s[2..][1..] == s[3..];
    assert Delays(s[2..]) == [d];
    assert s[1..][1..] == s[2..];
    assert Delays(s[1..]) == [d];
  }

  // ---------------------------------------------------------------------------
  // One attempt
  // ---------------------------------------------------------------------------

  /** `query` retries exactly when the reply is a read-only error, the disconnect
      flag is off, `aurora_max_retry` is present and not yet used up, and the new
      connection is accepted; a retry step is the attempt, a warning and a sleep for
      the backoff, a close of the old connection and the connection with the same
      options, in that order. */
  lemma {:induction false} RetriesExactlyWhen(o: Oracle, opts: Options, sql: string, tryCount: nat, at: Cursor)
    ensures var h := Handle(o, opts, sql, tryCount, at);
      h.Retry? <==> && IsFailover(o.replyAt(at.queries))
                    && !opts.auroraDisconnectOnReadonly
                    && opts.auroraMaxRetry.Some? && tryCount + 1 <= opts.auroraMaxRetry.value
                    && o.refusalAt(at.connects).None?
    ensures var h := Handle(o, opts, sql, tryCount, at); var d := Backoff(tryCount + 1);
      h.Retry? ==>
        && h.step == [Queried(sql), Warned(RetryAfter(d)), Slept(d), Closed(o.closeRaisesAt(at.closes)), Connected(opts, true)]
        && h.cursor == Cursor(at.queries + 1, at.closes + 1, at.connects + 1)
        && Count(h.step, Queries) == 1 && Count(h.step, Warnings) == 1 && Count(h.step, Sleeps) == 1
        && Count(h.step, Closes) == 1 && Count(h.step, ConnectAttempts) == 1 && Count(h.step, Reconnects) == 1
        && Delays(h.step) == [d]
  {
    var h := Handle(o, opts, sql, tryCount, at);
    if h.Retry? {
      var d := Backoff(tryCount + 1);
      var step := [Queried(sql), Warned(RetryAfter(d)), Slept(d), Closed(o.closeRaisesAt(at.closes)), Connected(opts, true)];
      assert h.step == step;
      CountOfFive(step, Queries);
      CountOfFive(step, Warnings);
      CountOfFive(step, Sleeps);
      CountOfFive(step, Closes);
      CountOfFive(step, ConnectAttempts);
      CountOfFive(step, Reconnects);
      DelaysOfStep(Queried(sql), Warned(RetryAfter(d)), d, Closed(o.closeRaisesAt(at.closes)), Connected(opts, true));
    }
  }

  lemma {:induction false} CountOfOne(a: Event, k: Kind)
    ensures Count([a], k) == Bit(a, k)
  {
    assert [a][1..] == [];
  }

  lemma {:induction false} DelaysOfOne(a: Event)
    requires !a.Slept?
    ensures Delays([a]) == []
  {
    assert [a][1..] == [];
  }

  lemma {:induction false} DelaysOfThree(a: Event, b: Event, c: Event)
    requires !a.Slept? && !b.Slept? && !c.Slept?
    ensures Delays([a, b, c]) == []
  {
    assert [a, b, c][1..] == [b, c];
    assert [b, c][1..] == [c];
    DelaysOfOne(c);
  }

  /** The events and the next position of an attempt, whether it finished or retried. */
  function Events(h: Handling): seq<Event> {
    if h.Finish? then h.effect.events else h.step
  }

  /** The tallies every attempt keeps: one query; a new connection only on a retry;
      a sleep, for `delay`, exactly with a connection attempt, at most once; a
      warning for every close. */
  predicate Tallied(es: seq<Event>, retried: bool, delay: real) {
    && Count(es, Queries) == 1
    && Count(es, Reconnects) == (if retried then 1 else 0)
    && Count(es, Sleeps) == Count(es, ConnectAttempts) <= 1
    && Count(es, Warnings) == Count(es, Closes)
    && Delays(es) == (if Count(es, Sleeps) == 1 then [delay] else [])
  }

  lemma {:induction false} QueryOnlyTallied(sql: string, delay: real)
    ensures Tallied([Queried(sql)], false, delay)
  {
    forall k: Kind ensures Count([Queried(sql)], k) == Bit(Queried(sql), k) {
      CountOfOne(Queried(sql), k);
    }
    DelaysOfOne(Queried(sql));
  }

  lemma {:induction false} ClosingTallied(sql: string, raised: bool, delay: real)
    ensures Tallied([Queried(sql), Warned(ClosingConnection), Closed(raised)], false, delay)
    ensures Count([Queried(sql), Warned(ClosingConnection), Closed(raised)], Closes) == 1
    ensures Count([Queried(sql), Warned(ClosingConnection), Closed(raised)], ConnectAttempts) == 0
  {
    var es := [Queried(sql), Warned(ClosingConnection), Closed(raised)];
    forall k: Kind ensures Count(es, k) == Bit(es[0], k) + Bit(es[1], k) + Bit(es[2], k) {
      CountOfThree(es[0], es[1], es[2], k);
    }
    DelaysOfThree(es[0], es[1], es[2]);
  }

  lemma {:induction false} StepTallied(sql: string, delay: real, raised: bool, opts: Options, accepted: bool)
    ensures Tallied([Queried(sql), Warned(RetryAfter(delay)), Slept(delay), Closed(raised), Connected(opts, accepted)],
                    accepted, delay)
    ensures var es := [Queried(sql), Warned(RetryAfter(delay)), Slept(delay), Closed(raised), Connected(opts, accepted)];
      Count(es, Closes) == 1 && Count(es, ConnectAttempts) == 1
  {
    var es := [Queried(sql), Warned(RetryAfter(delay)), Slept(delay), Closed(raised), Connected(opts, accepted)];
    forall k: Kind ensures Count(es, k) == Bit(es[0], k) + Bit(es[1], k) + Bit(es[2], k) + Bit(es[3], k) + Bit(es[4], k) {
      CountOfFive(es, k);
    }
    DelaysOfStep(es[0], es[1], delay, es[3], es[4]);
  }

  /** An attempt that finishes runs one query, installs no connection, sleeps
      exactly when it tried to connect, warns once per close, and moves the
      server's answers on by exactly what it used. */
  lemma {:induction false} FinishedAttempt(o: Oracle, opts: Options, sql: string, tryCount: nat, at: Cursor)
    requires Handle(o, opts, sql, tryCount, at).Finish?
    ensures var e := Handle(o, opts, sql, tryCount, at).effect;
      && Tallied(e.events, false, Backoff(tryCount + 1))
      && e.cursor == Cursor(at.queries + 1, at.closes + Count(e.events, Closes),
                            at.connects + Count(e.events, ConnectAttempts))
  {
    var reply := o.replyAt(at.queries);
    var d := Backoff(tryCount + 1);
    var raised := o.closeRaisesAt(at.closes);
    if !IsFailover(reply) || (!opts.auroraDisconnectOnReadonly && (opts.auroraMaxRetry.None? || tryCount + 1 > opts.auroraMaxRetry.value)) {
      QueryOnlyTallied(sql, d);
    } else if opts.auroraDisconnectOnReadonly {
      ClosingTallied(sql, raised, d);
      assert Handle(o, opts, sql, tryCount, at).effect.events == [Queried(sql), Warned(ClosingConnection), Closed(raised)];
    } else {
      StepTallied(sql, d, raised, opts, false);
      assert Handle(o, opts, sql, tryCount, at).effect.events == [Queried(sql), Warned(RetryAfter(d)), Slept(d), Closed(raised), Connected(opts, false)];
    }
  }

  /** An attempt that finishes returns the reply it got, the `ArgumentError` of a
      missing `aurora_max_retry`, or the error of the reconnection the server
      refused. */
  lemma {:induction false} FinishReturnsGiven(o: Oracle, opts: Options, sql: string, tryCount: nat, at: Cursor)
    requires Handle(o, opts, sql, tryCount, at).Finish?
    ensures var e := Handle(o, opts, sql, tryCount, at).effect;
      && e.cursor.queries == at.queries + 1
      && (|| e.value == o.replyAt(at.queries)
          || (e.value == Err(ArgumentError) && opts.auroraMaxRetry.None?)
          || (e.value.Err? && e.cursor.connects == at.connects + 1 && o.refusalAt(at.connects) == Some(e.value.error)))
  {
  }

  /** A retry step runs one query, sleeps once for the backoff of this retry,
      closes once and installs one connection. */
  lemma {:induction false} RetriedAttempt(o: Oracle, opts: Options, sql: string, tryCount: nat, at: Cursor)
    requires Handle(o, opts, sql, tryCount, at).Retry?
    ensures var h := Handle(o, opts, sql, tryCount, at);
      && Tallied(h.step, true, Backoff(tryCount + 1))
      && Count(h.step, Sleeps) == 1 && Count(h.step, Closes) == 1 && Count(h.step, ConnectAttempts) == 1
      && h.cursor == Cursor(at.queries + 1, at.closes + 1, at.connects + 1)
  {
    RetriesExactlyWhen(o, opts, sql, tryCount, at);
  }

  // ---------------------------------------------------------------------------
  // A whole call
  // ---------------------------------------------------------------------------

  /** A call that retries is its retry step followed by the call from the next retry on. */
  lemma RetryUnfolds(o: Oracle, opts: Options, sql: string, tryCount: nat, at: Cursor)
    requires tryCount <= Budget(opts) && Handle(o, opts, sql, tryCount, at).Retry?
    ensures var h := Handle(o, opts, sql, tryCount, at);
      var rest := QueryEffect(o, opts, sql, tryCount + 1, h.cursor);
      QueryEffect(o, opts, sql, tryCount, at) == Then(h.step, rest)
  {
  }

  /** A call that reconnects `reconnects` times runs the query `reconnects + 1`
      times, and it reconnects no more often than `allowed`. */
  predicate WithinBudget(e: Effect<Reply>, allowed: int, at: Cursor) {
    var reconnects := Count(e.events, Reconnects);
    && reconnects <= allowed
    && Count(e.events, Queries) == reconnects + 1
    && e.cursor.queries == at.queries + reconnects + 1
  }

  /** Sleeps and connection attempts come in pairs, and so do warnings and closes;
      the server's close and connect answers are used by exactly those. */
  predicate SleepsPaired(e: Effect<Reply>, at: Cursor) {
    && Count(e.events, Sleeps) == Count(e.events, ConnectAttempts) <= Count(e.events, Reconnects) + 1
    && Count(e.events, Warnings) == Count(e.events, Closes)
    && e.cursor.closes == at.closes + Count(e.events, Closes)
    && e.cursor.connects == at.connects + Count(e.events, ConnectAttempts)
  }

  /** The delays slept are the backoffs of retries `from`, `from + 1`, … in order. */
  predicate OnSchedule(es: seq<Event>, from: int) {
    Delays(es) == Schedule(from, Count(es, Sleeps))
  }

  lemma {:induction false} StepKeepsBudget(step: seq<Event>, rest: Effect<Reply>, d: real, allowed: int, at: Cursor, next: Cursor)
    requires Tallied(step, true, d) && next.queries == at.queries + 1
    requires WithinBudget(rest, allowed - 1, next)
    ensures WithinBudget(Then(step, rest), allowed, at)
  {
    CountAppend(step, rest.events, Reconnects);
    CountAppend(step, rest.events, Queries);
  }

  lemma {:induction false} StepKeepsPairs(step: seq<Event>, rest: Effect<Reply>, d: real, at: Cursor, next: Cursor)
    requires Tallied(step, true, d)
    requires next == Cursor(at.queries + 1, at.closes + Count(step, Closes), at.connects + Count(step, ConnectAttempts))
    requires SleepsPaired(rest, next)
    ensures SleepsPaired(Then(step, rest), at)
  {
    CountAppend(step, rest.events, Sleeps);
    CountAppend(step, rest.events, ConnectAttempts);
    CountAppend(step, rest.events, Reconnects);
    CountAppend(step, rest.events, Warnings);
    CountAppend(step, rest.events, Closes);
  }

  lemma {:induction false} StepKeepsSchedule(step: seq<Event>, rest: seq<Event>, from: int)
    requires Tallied(step, true, Backoff(from)) && Count(step, Sleeps) == 1
    requires OnSchedule(rest, from + 1)
    ensures OnSchedule(step + rest, from)
  {
    CountAppend(step, rest, Sleeps);
    DelaysAppend(step, rest);
    var n := Count(rest, Sleeps);
    assert Schedule(from, n + 1) == [Backoff(from)] + Schedule(from + 1, n);
  }

  /** Whatever the server answers, one call of `query` (from `tryCount` handled
      errors on) reconnects at most as often as `aurora_max_retry` still allows and
      runs the query once more than it reconnects. */
  lemma {:induction false} QueryReconnectsWithinBudget(o: Oracle, opts: Options, sql: string, tryCount: nat, at: Cursor)
    requires tryCount <= Budget(opts)
    ensures WithinBudget(QueryEffect(o, opts, sql, tryCount, at), Budget(opts) - tryCount, at)
    decreases Budget(opts) - tryCount
  {
    var h := Handle(o, opts, sql, tryCount, at);
    if h.Retry? {
      QueryReconnectsWithinBudget(o, opts, sql, tryCount + 1, h.cursor);
      RetryUnfolds(o, opts, sql, tryCount, at);
      RetriedAttempt(o, opts, sql, tryCount, at);
      StepKeepsBudget(h.step, QueryEffect(o, opts, sql, tryCount + 1, h.cursor), Backoff(tryCount + 1),
                      Budget(opts) - tryCount, at, h.cursor);
    } else {
      FinishedAttempt(o, opts, sql, tryCount, at);
    }
  }

  /** Every connection attempt of a call is preceded by a sleep, and every close by
      a warning; the server's close and connect answers are used by exactly those. */
  lemma {:induction false} QuerySleepsPairWithConnects(o: Oracle, opts: Options, sql: string, tryCount: nat, at: Cursor)
    requires tryCount <= Budget(opts)
    ensures SleepsPaired(QueryEffect(o, opts, sql, tryCount, at), at)
    decreases Budget(opts) - tryCount
  {
    var h := Handle(o, opts, sql, tryCount, at);
    if h.Retry? {
      QuerySleepsPairWithConnects(o, opts, sql, tryCount + 1, h.cursor);
      RetryUnfolds(o, opts, sql, tryCount, at);
      RetriedAttempt(o, opts, sql, tryCount, at);
      StepKeepsPairs(h.step, QueryEffect(o, opts, sql, tryCount + 1, h.cursor), Backoff(tryCount + 1), at, h.cursor);
    } else {
      FinishedAttempt(o, opts, sql, tryCount, at);
    }
  }

  /** The sleeps of a call follow the backoff schedule from retry `tryCount + 1` on,
      in order. */
  lemma {:induction false} QuerySleepsOnSchedule(o: Oracle, opts: Options, sql: string, tryCount: nat, at: Cursor)
    requires tryCount <= Budget(opts)
    ensures OnSchedule(QueryEffect(o, opts, sql, tryCount, at).events, tryCount + 1)
    decreases Budget(opts) - tryCount
  {
    var h := Handle(o, opts, sql, tryCount, at);
    if h.Retry? {
      QuerySleepsOnSchedule(o, opts, sql, tryCount + 1, h.cursor);
      RetryUnfolds(o, opts, sql, tryCount, at);
      RetriedAttempt(o, opts, sql, tryCount, at);
      StepKeepsSchedule(h.step, QueryEffect(o, opts, sql, tryCount + 1, h.cursor).events, tryCount + 1);
    } else {
      FinishedAttempt(o, opts, sql, tryCount, at);
    }
  }

  /** `e` moved past at least one query from `at` and returns the reply to its
      last query, the `ArgumentError` of a missing `aurora_max_retry`, or the
      error of its last connection attempt, which the server refused. */
  predicate ReturnsGiven(e: Effect<Reply>, o: Oracle, opts: Options, at: Cursor) {
    && e.cursor.queries > at.queries
    && (|| e.value == o.replyAt(e.cursor.queries - 1)
        || (e.value == Err(ArgumentError) && opts.auroraMaxRetry.None?)
        || (e.value.Err? && e.cursor.connects > at.connects
            && o.refusalAt(e.cursor.connects - 1) == Some(e.value.error)))
  }

  lemma StepKeepsGiven(step: seq<Event>, rest: Effect<Reply>, o: Oracle, opts: Options, at: Cursor, next: Cursor)
    requires next.queries > at.queries && next.connects > at.connects
    requires ReturnsGiven(rest, o, opts, next)
    ensures ReturnsGiven(Then(step, rest), o, opts, at)
  {
  }

  /** `query` never replaces an error by one of its own making: it returns the
      last reply, the `ArgumentError` of a missing `aurora_max_retry`, or the error
      of the last connection attempt, which the server refused. */
  lemma {:induction false} QueryReturnsWhatItWasGiven(o: Oracle, opts: Options, sql: string, tryCount: nat, at: Cursor)
    requires tryCount <= Budget(opts)
    ensures ReturnsGiven(QueryEffect(o, opts, sql, tryCount, at), o, opts, at)
    decreases Budget(opts) - tryCount
  {
    var h := Handle(o, opts, sql, tryCount, at);
    if h.Retry? {
      QueryReturnsWhatItWasGiven(o, opts, sql, tryCount + 1, h.cursor);
      RetryUnfolds(o, opts, sql, tryCount, at);
      RetriedAttempt(o, opts, sql, tryCount, at);
      StepKeepsGiven(h.step, QueryEffect(o, opts, sql, tryCount + 1, h.cursor), o, opts, at, h.cursor);
    } else {
      FinishReturnsGiven(o, opts, sql, tryCount, at);
    }
  }

  // ---------------------------------------------------------------------------
  // reconnect! and disconnect!
  // ---------------------------------------------------------------------------

  /** `reconnect!` on a live connection closes it and then connects with the same
      options; whether `close` raised makes no difference: the new connection is
      installed exactly when the server accepts it. */
  lemma ReconnectDespiteFailedClose(o: Oracle, opts: Options, at: Cursor)
    ensures var e := ReconnectEffect(o, Some(opts), at);
      && e.value == o.refusalAt(at.connects)
      && e.events == [Closed(o.closeRaisesAt(at.closes)), Connected(opts, e.value.None?)]
      && e.cursor == Cursor(at.queries, at.closes + 1, at.connects + 1)
  {
  }

  /** `disconnect!` raises nothing: its only effect is at most one close, and none
      when there is no connection. */
  lemma DisconnectOnlyCloses(o: Oracle, live: bool, at: Cursor)
    ensures var e := DisconnectEffect(o, live, at);
      && Count(e.events, Closes) == |e.events|
      && (live ==> e.events == [Closed(o.closeRaisesAt(at.closes))] && e.cursor == at.(closes := at.closes + 1))
      && (!live ==> e.events == [] && e.cursor == at)
  {
    var e := DisconnectEffect(o, live, at);
    if live {
      CountOfOne(e.events[0], Closes);
    }
  }

  // ---------------------------------------------------------------------------
  // The three ways a read-only error is handled
  // ---------------------------------------------------------------------------

  /** An error that is not a read-only error (another `Trilogy::Error`, one with a
      nil message, or any other `StandardError`), and a success, are passed back
      from the first attempt: one query, nothing else. */
  lemma UnclassifiedErrorPropagates(o: Oracle, opts: Options, sql: string, tryCount: nat, at: Cursor)
    requires tryCount <= Budget(opts)
    requires !IsFailover(o.replyAt(at.queries))
    ensures QueryEffect(o, opts, sql, tryCount, at) == Effect(o.replyAt(at.queries), [Queried(sql)], at.(queries := at.queries + 1))
  {
  }

  /** With `aurora_disconnect_on_readonly` set, a read-only error is answered by one
      warning and one close, and then raised again: there is no sleep and no
      connection attempt, whatever `aurora_max_retry` says. */
  lemma DisconnectsInsteadOfRetrying(o: Oracle, opts: Options, sql: string, tryCount: nat, at: Cursor)
    requires tryCount <= Budget(opts) && opts.auroraDisconnectOnReadonly
    requires IsFailover(o.replyAt(at.queries))
    ensures var e := QueryEffect(o, opts, sql, tryCount, at);
      && e.value == o.replyAt(at.queries)
      && e.events == [Queried(sql), Warned(ClosingConnection), Closed(o.closeRaisesAt(at.closes))]
      && e.cursor == Cursor(at.queries + 1, at.closes + 1, at.connects)
  {
  }

  /** Without `aurora_max_retry` the comparison `try_count <= nil` raises an
      `ArgumentError` as soon as a read-only error is handled in retry mode. */
  lemma MissingMaxRetryRaisesArgumentError(o: Oracle, opts: Options, sql: string, at: Cursor)
    requires !opts.auroraDisconnectOnReadonly && opts.auroraMaxRetry.None?
    requires IsFailover(o.replyAt(at.queries))
    ensures var e := QueryEffect(o, opts, sql, 0, at);
      e.value == Err(ArgumentError) && e.events == [Queried(sql)]
  {
  }

  /** The premise of a run of `k` read-only errors in retry mode, from `at` on:
      the first `k` attempts fail over, every reconnection is accepted, and the
      attempt after them either does not fail over or finds the budget used up. */
  predicate FailoverRunFrom(o: Oracle, opts: Options, tryCount: nat, at: Cursor, k: nat) {
    && !opts.auroraDisconnectOnReadonly && opts.auroraMaxRetry.Some?
    && tryCount + k <= Budget(opts)
    && (forall q :: at.queries <= q < at.queries + k ==> IsFailover(o.replyAt(q)))
    && (forall c :: at.connects <= c < at.connects + k ==> o.refusalAt(c).None?)
    && (tryCount + k == Budget(opts) || !IsFailover(o.replyAt(at.queries + k)))
  }

  /** `e` returned `reply` after `k` reconnections, each one closing a connection. */
  predicate RanFor(e: Effect<Reply>, reply: Reply, k: nat) {
    && e.value == reply
    && Count(e.events, Reconnects) == k
    && Count(e.events, ConnectAttempts) == k
    && Count(e.events, Closes) == k
  }

  lemma {:induction false} RunEnds(o: Oracle, opts: Options, sql: string, tryCount: nat, at: Cursor)
    requires FailoverRunFrom(o, opts, tryCount, at, 0)
    ensures RanFor(QueryEffect(o, opts, sql, tryCount, at), o.replyAt(at.queries), 0)
  {
    var h := Handle(o, opts, sql, tryCount, at);
    assert h == Finish(Effect(o.replyAt(at.queries), [Queried(sql)], at.(queries := at.queries + 1)));
    CountOfOne(Queried(sql), Reconnects);
    CountOfOne(Queried(sql), ConnectAttempts);
    CountOfOne(Queried(sql), Closes);
  }

  lemma {:induction false} RunContinues(o: Oracle, opts: Options, sql: string, tryCount: nat, at: Cursor, k: nat)
    requires 1 <= k && FailoverRunFrom(o, opts, tryCount, at, k)
    ensures var h := Handle(o, opts, sql, tryCount, at);
      && h.Retry?
      && h.cursor == Cursor(at.queries + 1, at.closes + 1, at.connects + 1)
      && Count(h.step, Reconnects) == 1 && Count(h.step, ConnectAttempts) == 1 && Count(h.step, Closes) == 1
      && FailoverRunFrom(o, opts, tryCount + 1, h.cursor, k - 1)
  {
    RetriesExactlyWhen(o, opts, sql, tryCount, at);
  }

  lemma {:induction false} StepExtendsRun(step: seq<Event>, rest: Effect<Reply>, reply: Reply, k: nat)
    requires Count(step, Reconnects) == 1 && Count(step, ConnectAttempts) == 1 && Count(step, Closes) == 1
    requires RanFor(rest, reply, k)
    ensures RanFor(Then(step, rest), reply, k + 1)
  {
    CountAppend(step, rest.events, Reconnects);
    CountAppend(step, rest.events, ConnectAttempts);
    CountAppend(step, rest.events, Closes);
  }

  lemma {:induction false} FailoverRunReconnects(o: Oracle, opts: Options, sql: string, tryCount: nat, at: Cursor, k: nat)
    requires FailoverRunFrom(o, opts, tryCount, at, k)
    ensures RanFor(QueryEffect(o, opts, sql, tryCount, at), o.replyAt(at.queries + k), k)
    decreases k
  {
    if k == 0 {
      RunEnds(o, opts, sql, tryCount, at);
    } else {
      var h := Handle(o, opts, sql, tryCount, at);
      RunContinues(o, opts, sql, tryCount, at, k);
      FailoverRunReconnects(o, opts, sql, tryCount + 1, h.cursor, k - 1);
      RetryUnfolds(o, opts, sql, tryCount, at);
      StepExtendsRun(h.step, QueryEffect(o, opts, sql, tryCount + 1, h.cursor), o.replyAt(at.queries + k), k - 1);
    }
  }

  /** A run of `k` read-only errors in retry mode: the call runs the query `k + 1`
      times, sleeps, closes and reconnects `k` times on the backoff schedule, and
      returns the reply to its last attempt. */
  lemma {:induction false} FailoverRun(o: Oracle, opts: Options, sql: string, tryCount: nat, at: Cursor, k: nat)
    requires FailoverRunFrom(o, opts, tryCount, at, k)
    ensures var e := QueryEffect(o, opts, sql, tryCount, at);
      && e.value == o.replyAt(at.queries + k)
      && Count(e.events, Queries) == k + 1
      && Count(e.events, Reconnects) == k
      && Count(e.events, Sleeps) == k
      && Count(e.events, Closes) == k
      && Delays(e.events) == Schedule(tryCount + 1, k)
      && e.cursor == Cursor(at.queries + k + 1, at.closes + k, at.connects + k)
  {
    FailoverRunReconnects(o, opts, sql, tryCount, at, k);
    QueryReconnectsWithinBudget(o, opts, sql, tryCount, at);
    QuerySleepsPairWithConnects(o, opts, sql, tryCount, at);
    QuerySleepsOnSchedule(o, opts, sql, tryCount, at);
  }

  /** The scenario of a server that stays read-only, with `aurora_max_retry: 10`:
      eleven queries, ten reconnections, sleeps of 0, 1.5, 3, 4.5, 6, 7.5, 9, 10, 10
      and 10 seconds in that order, and the last read-only error raised. */
  lemma {:induction false} TenFailovers(o: Oracle, settings: map<string, string>, sql: string, at: Cursor)
    requires forall q :: at.queries <= q <= at.queries + 10 ==> o.replyAt(q) == Err(DatabaseError(Some(FailoverMessage)))
    requires forall c :: at.connects <= c < at.connects + 10 ==> o.refusalAt(c).None?
    ensures var e := QueryEffect(o, Options(Some(10), false, settings), sql, 0, at);
      && e.value == Err(DatabaseError(Some(FailoverMessage)))
      && Count(e.events, Queries) == 11
      && Count(e.events, Reconnects) == 10
      && Delays(e.events) == [0.0, 1.5, 3.0, 4.5, 6.0, 7.5, 9.0, 10.0, 10.0, 10.0]
  {
    FailoverMessageIsReadOnly();
    assert FailoverRunFrom(o, Options(Some(10), false, settings), 0, at, 10);
    FailoverRun(o, Options(Some(10), false, settings), sql, 0, at, 10);
    TenRetriesSchedule();
  }

  /** Two failovers, then a success, with `aurora_max_retry: 5`: the rows come
      back after three queries and two reconnections, having slept 0 and 1.5
      seconds. */
  lemma {:induction false} RecoversAfterTwoFailovers(o: Oracle, settings: map<string, string>, sql: string, rows: Rows, at: Cursor)
    requires forall q :: at.queries <= q < at.queries + 2 ==> o.replyAt(q) == Err(DatabaseError(Some(FailoverMessage)))
    requires o.replyAt(at.queries + 2) == Ok(rows)
    requires forall c :: at.connects <= c < at.connects + 2 ==> o.refusalAt(c).None?
    ensures var e := QueryEffect(o, Options(Some(5), false, settings), sql, 0, at);
      && e.value == Ok(rows)
      && Count(e.events, Queries) == 3
      && Count(e.events, Reconnects) == 2
      && Delays(e.events) == [0.0, 1.5]
  {
    FailoverMessageIsReadOnly();
    assert FailoverRunFrom(o, Options(Some(5), false, settings), 0, at, 2);
    FailoverRun(o, Options(Some(5), false, settings), sql, 0, at, 2);
    assert Schedule(1, 2) == [Backoff(1)] + Schedule(2, 1);
  }

  // ---------------------------------------------------------------------------
  // The order of events
  // ---------------------------------------------------------------------------

  /** The order `query` keeps: every query is `sql`, every connection attempt uses
      the options `opts`, every sleep comes right after the query that failed and
      the warning that announces the same delay and right before the close and the
      connection attempt, and a connection that is accepted is used at once to run
      the query again. */
  predicate Ordered(es: seq<Event>, sql: string, opts: Options) {
    && (forall i :: 0 <= i < |es| && es[i].Queried? ==> es[i] == Queried(sql))
    && (forall i :: 0 <= i < |es| && es[i].Connected? ==> es[i].options == opts)
    && (forall i :: 0 <= i < |es| && es[i].Slept? ==>
          && 2 <= i < |es| - 2
          && es[i - 2] == Queried(sql) && es[i - 1] == Warned(RetryAfter(es[i].seconds))
          && es[i + 1].Closed? && es[i + 2].Connected?)
    && (forall i :: 0 <= i < |es| - 1 && es[i].Connected? && es[i].accepted ==> es[i + 1] == Queried(sql))
  }

  lemma {:induction false} OrderedAppend(a: seq<Event>, b: seq<Event>, sql: string, opts: Options)
    requires Ordered(a, sql, opts) && Ordered(b, sql, opts)
    requires 1 <= |b| && b[0] == Queried(sql)
    ensures Ordered(a + b, sql, opts)
  {
    var es := a + b;
    forall i | 0 <= i < |es| && es[i].Slept?
      ensures 2 <= i < |es| - 2
      ensures es[i - 2] == Queried(sql) && es[i - 1] == Warned(RetryAfter(es[i].seconds))
      ensures es[i + 1].Closed? && es[i + 2].Connected?
    {
      if i < |a| {
        assert a[i].Slept?;
      } else {
        assert b[i - |a|].Slept?;
      }
    }
    forall i | 0 <= i < |es| - 1 && es[i].Connected? && es[i].accepted
      ensures es[i + 1] == Queried(sql)
    {
      if i < |a| - 1 {
        assert a[i].Connected?;
      } else if i >= |a| {
        assert b[i - |a|].Connected?;
      }
    }
  }

  lemma LastOfAppend(a: seq<Event>, b: seq<Event>)
    requires 1 <= |b|
    ensures (a + b)[|a + b| - 1] == b[|b| - 1]
  {
  }

  /** A call ends on an event other than a connection it has not used. */
  predicate EndsUsed(es: seq<Event>) {
    1 <= |es| && !(es[|es| - 1].Connected? && es[|es| - 1].accepted)
  }

  lemma ShortAttemptsOrdered(sql: string, opts: Options, raised: bool)
    ensures Ordered([Queried(sql)], sql, opts) && EndsUsed([Queried(sql)])
    ensures var es := [Queried(sql), Warned(ClosingConnection), Closed(raised)];
      Ordered(es, sql, opts) && EndsUsed(es)
  {
  }

  lemma StepOrdered(sql: string, opts: Options, d: real, raised: bool, accepted: bool)
    ensures var es := [Queried(sql), Warned(RetryAfter(d)), Slept(d), Closed(raised), Connected(opts, accepted)];
      Ordered(es, sql, opts) && (!accepted ==> EndsUsed(es))
  {
  }

  /** The events of one attempt keep the order, and an attempt that finishes does
      not end on a connection it has not used. */
  lemma {:induction false} AttemptOrdered(o: Oracle, opts: Options, sql: string, tryCount: nat, at: Cursor)
    ensures var h := Handle(o, opts, sql, tryCount, at);
      && Ordered(Events(h), sql, opts)
      && (h.Finish? ==> EndsUsed(Events(h)))
  {
    var reply := o.replyAt(at.queries);
    var h := Handle(o, opts, sql, tryCount, at);
    var raised := o.closeRaisesAt(at.closes);
    ShortAttemptsOrdered(sql, opts, raised);
    if IsFailover(reply) && !opts.auroraDisconnectOnReadonly && opts.auroraMaxRetry.Some? && tryCount + 1 <= opts.auroraMaxRetry.value {
      var d := Backoff(tryCount + 1);
      var accepted := o.refusalAt(at.connects).None?;
      StepOrdered(sql, opts, d, raised, accepted);
      assert Events(h) == [Queried(sql), Warned(RetryAfter(d)), Slept(d), Closed(raised), Connected(opts, accepted)];
    }
  }


  lemma {:induction false} RetryKeepsOrder(o: Oracle, opts: Options, sql: string, tryCount: nat, at: Cursor)
    requires tryCount <= Budget(opts) && Handle(o, opts, sql, tryCount, at).Retry?
    requires var rest := QueryEffect(o, opts, sql, tryCount + 1, Handle(o, opts, sql, tryCount, at).cursor).events;
      Ordered(rest, sql, opts) && EndsUsed(rest)
    ensures var es := QueryEffect(o, opts, sql, tryCount, at).events;
      Ordered(es, sql, opts) && EndsUsed(es)
  {
    var h := Handle(o, opts, sql, tryCount, at);
    var rest := QueryEffect(o, opts, sql, tryCount + 1, h.cursor).events;
    AttemptOrdered(o, opts, sql, tryCount, at);
    OrderedAppend(h.step, rest, sql, opts);
    LastOfAppend(h.step, rest);
  }

  /** The events of a whole call keep the order above, and a call never ends on a
      connection it has not used. */
  lemma {:induction false} QueryOrdered(o: Oracle, opts: Options, sql: string, tryCount: nat, at: Cursor)
    requires tryCount <= Budget(opts)
    ensures var es := QueryEffect(o, opts, sql, tryCount, at).events;
      Ordered(es, sql, opts) && EndsUsed(es)
    decreases Budget(opts) - tryCount
  {
    var h := Handle(o, opts, sql, tryCount, at);
    if h.Retry? {
      QueryOrdered(o, opts, sql, tryCount + 1, h.cursor);
      RetryKeepsOrder(o, opts, sql, tryCount, at);
    } else {
      AttemptOrdered(o, opts, sql, tryCount, at);
    }
  }
}
