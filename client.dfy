/** `TrilogyAurora::Client`: a raw Trilogy connection wrapped so that a query that
    fails because the server has become read-only (an Aurora failover) either closes
    the connection, or waits, reconnects and runs the query again. */
module TrilogyAurora {
  import opened Trilogy
  import opened Trace

  /** The text that marks a read-only error. */
  const ReadOnlyMarker: string := "--read-only"

  /** What calling a method on `nil` raises. */
  const NoMethodError: Error := OtherError("NoMethodError")

  /** What comparing an Integer with `nil` raises. */
  const ArgumentError: Error := OtherError("ArgumentError")

  /** Ruby's `String#include?`: `sub` occurs somewhere in `s`. */
  predicate Includes(s: string, sub: string)
    decreases |s|
  {
    |sub| <= |s| && (s[..|sub|] == sub || Includes(s[1..], sub))
  }

  /** The whole classification rule: a `Trilogy::Error` whose message is present
      and mentions `--read-only`. */
  predicate IsReadOnlyError(e: Error) {
    e.DatabaseError? && e.message.Some? && Includes(e.message.value, ReadOnlyMarker)
  }

  /** A reply that `query` rescues: a raised read-only error. */
  predicate IsFailover(r: Reply) {
    r.Err? && IsReadOnlyError(r.error)
  }

  /** The delay, in seconds, before retry number `tryCount`: `[1.5 * (tryCount - 1), 10].min`. */
  function Backoff(tryCount: int): (seconds: real)
    ensures seconds <= 10.0
    ensures 1 <= tryCount ==> 0.0 <= seconds
  {
    var linear := 1.5 * (tryCount - 1) as real;
    if linear < 10.0 then linear else 10.0
  }

  /** How many retries the options allow: `aurora_max_retry`, and none when it is
      negative or absent. */
  function Budget(opts: Options): (n: nat)
    ensures opts.auroraMaxRetry.Some? && 0 <= opts.auroraMaxRetry.value ==> n == opts.auroraMaxRetry.value
  {
    match opts.auroraMaxRetry
    case Some(m) => if m < 0 then 0 else m
    case None => 0
  }

  /** The outcome of an operation against the world: what it returns (or raises),
      the events it causes, and where the world's answers stand afterwards. */
  datatype Effect<+T> = Effect(value: T, events: seq<Event>, cursor: Cursor)

  /** `disconnect!` on a client whose raw connection is `live` (not nil). */
  function DisconnectEffect(o: Oracle, live: bool, at: Cursor): (e: Effect<()>)
    ensures |e.events| == if live then 1 else 0
    ensures forall i :: 0 <= i < |e.events| ==> e.events[i].Closed?
    ensures e.cursor.queries == at.queries && e.cursor.connects == at.connects
  {
    if live then Effect((), [Closed(o.closeRaisesAt(at.closes))], at.(closes := at.closes + 1))
    else Effect((), [], at)
  }

  /** `reconnect!` on a client whose raw connection has options `current` (`None`
      when it is nil). The value is the error `reconnect!` raises, if any. */
  function ReconnectEffect(o: Oracle, current: Option<Options>, at: Cursor): (e: Effect<Option<Error>>)
    ensures e.value.None? ==> current.Some? && e.events == [Closed(o.closeRaisesAt(at.closes)), Connected(current.value, true)]
    ensures current.None? ==> e.value == Some(NoMethodError) && e.events == []
  {
    var closed := DisconnectEffect(o, current.Some?, at);
    if current.None? then Effect(Some(NoMethodError), closed.events, closed.cursor)
    else
      var refusal := o.refusalAt(closed.cursor.connects);
      Effect(refusal,
             closed.events + [Connected(current.value, refusal.None?)],
             closed.cursor.(connects := closed.cursor.connects + 1))
  }

  /** What `query` does with the reply to one attempt, when `tryCount` read-only
      errors have been handled before it: finish with `effect`, or take `step` (the
      attempt, a warning, a sleep and a reconnect) and ask again from `cursor`. */
  datatype Handling = Finish(effect: Effect<Reply>) | Retry(step: seq<Event>, cursor: Cursor)

  function Handle(o: Oracle, opts: Options, sql: string, tryCount: nat, at: Cursor): (h: Handling)
    ensures h.Retry? ==> tryCount + 1 <= Budget(opts) && |h.step| == 5 && h.step[4] == Connected(opts, true)
    ensures h.Retry? ==> h.step[0] == Queried(sql)
    ensures h.Finish? ==> 1 <= |h.effect.events| && h.effect.events[0] == Queried(sql)
  {
    var reply := o.replyAt(at.queries);
    var queried := at.(queries := at.queries + 1);
    if !IsFailover(reply) then
      Finish(Effect(reply, [Queried(sql)], queried))
    else if opts.auroraDisconnectOnReadonly then
      var closed := DisconnectEffect(o, true, queried);
      Finish(Effect(reply, [Queried(sql), Warned(ClosingConnection)] + closed.events, closed.cursor))
    else if opts.auroraMaxRetry.None? then
      Finish(Effect(Err(ArgumentError), [Queried(sql)], queried))
    else if tryCount + 1 <= opts.auroraMaxRetry.value then
      var delay := Backoff(tryCount + 1);
      var reconnected := ReconnectEffect(o, Some(opts), queried);
      var step := [Queried(sql), Warned(RetryAfter(delay)), Slept(delay)] + reconnected.events;
      if reconnected.value.Some? then
        Finish(Effect(Err(reconnected.value.value), step, reconnected.cursor))
      else
        Retry(step, reconnected.cursor)
    else
      Finish(Effect(reply, [Queried(sql)], queried))
  }

  /** `query(sql)` from the point where `tryCount` read-only errors have been handled
      and the raw connection, whose options are `opts`, is about to be asked. */
  function QueryEffect(o: Oracle, opts: Options, sql: string, tryCount: nat, at: Cursor): (e: Effect<Reply>)
    requires tryCount <= Budget(opts)
    ensures 1 <= |e.events| && e.events[0] == Queried(sql)
    decreases Budget(opts) - tryCount
  {
    match Handle(o, opts, sql, tryCount, at)
    case Finish(e) => e
    case Retry(step, next) =>
      Then(step, QueryEffect(o, opts, sql, tryCount + 1, next))
  }

  /** A retry step `step` followed by the rest of the call: the rest's reply and end
      position, after the events of both. */
  function Then(step: seq<Event>, rest: Effect<Reply>): Effect<Reply> {
    Effect(rest.value, step + rest.events, rest.cursor)
  }

  /** A retry step installs exactly one new connection. */
  lemma {:induction false} RetryStepReconnectsOnce(step: seq<Event>, opts: Options)
    requires |step| == 5 && step[4] == Connected(opts, true)
    requires forall i :: 0 <= i < 4 ==> !step[i].Connected?
    ensures Count(step, Reconnects) == 1
  {
    assert step[4..][1..] == [];
    assert Count(step[4..], Reconnects) == 1;
    assert step[3..][1..] == step[4..];
    assert Count(step[3..], Reconnects) == 1;
    assert step[2..][1..] == step[3..];
    assert Count(step[2..], Reconnects) == 1;
    assert step[1..][1..] == step[2..];
    assert Count(step[1..], Reconnects) == 1;
  }

  /** A finished attempt installs no new connection; a retry step installs one. */
  lemma HandleReconnects(o: Oracle, opts: Options, sql: string, tryCount: nat, at: Cursor)
    ensures var h := Handle(o, opts, sql, tryCount, at);
      && (h.Finish? ==> Count(h.effect.events, Reconnects) == 0)
      && (h.Retry? ==> Count(h.step, Reconnects) == 1)
  {
    var h := Handle(o, opts, sql, tryCount, at);
    if h.Finish? {
      CountNone(h.effect.events, Reconnects);
    } else {
      RetryStepReconnectsOnce(h.step, opts);
    }
  }

  class Client {
    const world: World
    /** `@trilogy`: the current raw connection. */
    var trilogy: Connection?

    ghost predicate Valid()
      reads this
    {
      trilogy != null ==> trilogy.world == world
    }

    constructor (world: World, connection: Connection)
      requires connection.world == world
      ensures Valid() && this.world == world && trilogy == connection
    {
      this.world := world;
      trilogy := connection;
    }

    /** `Client.new(options)`: connects at once, passing every option on to the raw
        client; a refused connection is raised and no client is made. */
    static method New(world: World, options: Options) returns (r: Result<Client>)
      modifies world
      ensures var refusal := world.oracle.refusalAt(old(world.cursor).connects);
        && world.cursor == old(world.cursor).(connects := old(world.cursor).connects + 1)
        && world.log == old(world.log) + [Connected(options, refusal.None?)]
        && (refusal.Some? ==> r == Err(refusal.value))
        && (refusal.None? ==> r.Ok? && fresh(r.value) && r.value.Valid() && r.value.world == world
                              && r.value.trilogy != null && fresh(r.value.trilogy)
                              && r.value.trilogy.options == options)
    {
      var c := world.Connect(options);
      if c.Err? {
        r := Err(c.error);
      } else {
        var client := new Client(world, c.value);
        r := Ok(client);
      }
    }

    /** `disconnect!`: closes the raw connection if there is one and swallows
        whatever `close` raises; `@trilogy` itself is left as it was. */
    method Disconnect()
      requires Valid()
      modifies world
      ensures var e := DisconnectEffect(world.oracle, trilogy != null, old(world.cursor));
        world.cursor == e.cursor && world.log == old(world.log) + e.events
    {
      if trilogy != null {
        var _ := trilogy.Close();
      }
    }

    /** `reconnect!`: disconnects, then installs a new raw connection made from a
        copy of the old one's options. */
    method Reconnect() returns (failure: Option<Error>)
      requires Valid()
      modifies this, world
      ensures Valid()
      ensures var e := ReconnectEffect(world.oracle,
                                       if old(trilogy) == null then None else Some(old(trilogy).options),
                                       old(world.cursor));
        failure == e.value && world.cursor == e.cursor && world.log == old(world.log) + e.events
      ensures failure.None? ==> old(trilogy) != null && trilogy != null && fresh(trilogy)
                                && trilogy != old(trilogy) && trilogy.options == old(trilogy).options
      ensures failure.Some? ==> trilogy == old(trilogy)
    {
      Disconnect();
      if trilogy == null {
        return Some(NoMethodError);
      }
      var c := world.Connect(trilogy.options);
      if c.Err? {
        return Some(c.error);
      }
      trilogy := c.value;
      return None;
    }

    /** One pass through the `begin`/`rescue` block of `query`, when `tryCount`
        read-only errors have been handled: run `sql`, and on a read-only error
        either disconnect, or warn, sleep and reconnect and ask for a `retry`. */
    method Attempt(sql: string, tryCount: nat) returns (r: Reply, retry: bool)
      requires Valid() && trilogy != null && tryCount <= Budget(trilogy.options)
      modifies this, world
      ensures Valid() && trilogy != null && trilogy.options == old(trilogy).options
      ensures var h := Handle(world.oracle, old(trilogy).options, sql, tryCount, old(world.cursor));
        && retry == h.Retry?
        && (h.Finish? ==> && r == h.effect.value && trilogy == old(trilogy)
                          && world.cursor == h.effect.cursor && world.log == old(world.log) + h.effect.events)
        && (h.Retry? ==> && fresh(trilogy)
                         && world.cursor == h.cursor && world.log == old(world.log) + h.step)
    {
      retry := false;
      r := trilogy.Query(sql);
      if !IsFailover(r) {
        return;
      }
      var count := tryCount + 1;
      if trilogy.options.auroraDisconnectOnReadonly {
        world.Warn(ClosingConnection);
        Disconnect();
        return;
      }
      if trilogy.options.auroraMaxRetry.None? {
        return Err(ArgumentError), false;
      }
      if count <= trilogy.options.auroraMaxRetry.value {
        var delay := Backoff(count);
        world.Warn(RetryAfter(delay));
        world.Sleep(delay);
        var failure := Reconnect();
        if failure.Some? {
          return Err(failure.value), false;
        }
        retry := true;
      }
    }

    /** `query(sql)`: runs `sql` on the raw connection and handles read-only errors
        by the connection's own `aurora_` options; the retry count starts at zero on
        every call. */
    method Query(sql: string) returns (r: Reply)
      requires Valid()
      modifies this, world
      ensures Valid()
      ensures old(trilogy) == null ==>
        && r == Err(NoMethodError) && trilogy == null
        && world.cursor == old(world.cursor) && world.log == old(world.log)
      ensures old(trilogy) != null ==>
        var e := QueryEffect(world.oracle, old(trilogy).options, sql, 0, old(world.cursor));
        && r == e.value && world.cursor == e.cursor && world.log == old(world.log) + e.events
        && trilogy != null && trilogy.options == old(trilogy).options
        && (Count(e.events, Reconnects) == 0 ==> trilogy == old(trilogy))
        && (Count(e.events, Reconnects) > 0 ==> fresh(trilogy))
    {
      if trilogy == null {
        return Err(NoMethodError);
      }
      ghost var o := world.oracle;
      ghost var opts := trilogy.options;
      ghost var first := trilogy;
      ghost var log0 := world.log;
      ghost var whole := QueryEffect(o, opts, sql, 0, world.cursor);
      ghost var done: seq<Event> := [];
      var tryCount := 0;
      while true
        invariant Valid() && trilogy != null && trilogy.options == opts
        invariant tryCount <= Budget(opts)
        invariant world.log == log0 + done
        invariant var rest := QueryEffect(o, opts, sql, tryCount, world.cursor);
          && whole.value == rest.value && whole.cursor == rest.cursor
          && whole.events == done + rest.events
          && Count(whole.events, Reconnects) == tryCount + Count(rest.events, Reconnects)
        invariant tryCount == 0 ==> trilogy == first
        invariant tryCount > 0 ==> fresh(trilogy)
        decreases Budget(opts) - tryCount
      {
        ghost var h := Handle(o, opts, sql, tryCount, world.cursor);
        ghost var rest := QueryEffect(o, opts, sql, tryCount, world.cursor);
        HandleReconnects(o, opts, sql, tryCount, world.cursor);
        ghost var logHead := world.log;
        var retry;
        r, retry := Attempt(sql, tryCount);
        if !retry {
          assert rest == h.effect;
          AppendAssociates(log0, done, h.effect.events);
          done := done + h.effect.events;
          return;
        }
        ghost var next := QueryEffect(o, opts, sql, tryCount + 1, world.cursor);
        assert rest == Then(h.step, next);
        CountAppend(h.step, next.events, Reconnects);
        AppendAssociates(log0, done, h.step);
        AppendAssociates(done, h.step, next.events);
        done := done + h.step;
        tryCount := tryCount + 1;
      }
    }
  }
}
