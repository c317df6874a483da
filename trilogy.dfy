/** The raw MySQL-protocol client (`::Trilogy`) and the world it talks to, seen only
    from the outside: the answers it gives are fixed in advance by an oracle, and
    every effect the failover wrapper can cause is written to an event log. */
module Trilogy {

  datatype Option<+T> = None | Some(value: T)

  /** An error raised by the raw client. `DatabaseError` is any class that includes
      the `Trilogy::Error` module (its message may be nil); `OtherError` is any other
      `StandardError`, named by its class. */
  datatype Error = DatabaseError(message: Option<string>) | OtherError(name: string)

  /** A call that either returns a value or raises an error. */
  datatype Result<+T> = Ok(value: T) | Err(error: Error)

  /** Rows of a result set; the wrapper never looks inside them. */
  type Rows = seq<seq<string>>

  /** What a call to `query` gives back to its caller. */
  type Reply = Result<Rows>

  /** The options hash given to `::Trilogy.new`. The two `aurora_` keys travel inside
      it, next to the driver's own settings; a missing `aurora_max_retry` is `None`,
      a missing `aurora_disconnect_on_readonly` is `false`. The flag stands for the
      option's truthiness: any value other than nil or false, even the string
      "false", turns disconnect mode on. */
  datatype Options = Options(
    auroraMaxRetry: Option<int>,
    auroraDisconnectOnReadonly: bool,
    settings: map<string, string>)

  /** The two warnings the wrapper prints; their wording is not modelled. */
  datatype Warning = ClosingConnection | RetryAfter(seconds: real)

  /** One observable effect. `Closed` records whether `close` raised; `Connected`
      records the options of the attempt and whether the server accepted it. */
  datatype Event =
    | Queried(sql: string)
    | Warned(warning: Warning)
    | Slept(seconds: real)
    | Closed(raised: bool)
    | Connected(options: Options, accepted: bool)

  /** How many queries, closes and connection attempts the world has answered. */
  datatype Cursor = Cursor(queries: nat, closes: nat, connects: nat)

  /** The answers of the server, by position: the reply to the k-th query, whether
      the k-th `close` raises, and whether the k-th connection attempt is refused. */
  datatype Oracle = Oracle(
    replyAt: nat -> Reply,
    closeRaisesAt: nat -> bool,
    refusalAt: nat -> Option<Error>)

  /** The server, the clock and the diagnostic stream together. */
  class World {
    const oracle: Oracle
    var cursor: Cursor
    var log: seq<Event>

    constructor (oracle: Oracle)
      ensures this.oracle == oracle && cursor == Cursor(0, 0, 0) && log == []
    {
      this.oracle := oracle;
      cursor := Cursor(0, 0, 0);
      log := [];
    }

    /** `::Trilogy.new(options)`: either a fresh connection holding `options` as its
        `connection_options`, or the error the server answered with. */
    method Connect(options: Options) returns (r: Result<Connection>)
      modifies this
      ensures var refusal := oracle.refusalAt(old(cursor).connects);
        && cursor == old(cursor).(connects := old(cursor).connects + 1)
        && log == old(log) + [Connected(options, refusal.None?)]
        && (refusal.Some? ==> r == Err(refusal.value))
        && (refusal.None? ==> r.Ok? && fresh(r.value) && r.value.world == this && r.value.options == options)
    {
      var refusal := oracle.refusalAt(cursor.connects);
      cursor := cursor.(connects := cursor.connects + 1);
      log := log + [Connected(options, refusal.None?)];
      if refusal.Some? {
        r := Err(refusal.value);
      } else {
        var c := new Connection(this, options);
        r := Ok(c);
      }
    }

    /** `Kernel#warn`. */
    method Warn(w: Warning)
      modifies this
      ensures cursor == old(cursor) && log == old(log) + [Warned(w)]
    {
      log := log + [Warned(w)];
    }

    /** `Kernel#sleep`. */
    method Sleep(seconds: real)
      modifies this
      ensures cursor == old(cursor) && log == old(log) + [Slept(seconds)]
    {
      log := log + [Slept(seconds)];
    }
  }

  /** One raw connection. It never changes once made: closing it is an event in the
      world, and a reconnect makes a new one. */
  class Connection {
    const world: World
    const options: Options

    constructor (world: World, options: Options)
      ensures this.world == world && this.options == options
    {
      this.world := world;
      this.options := options;
    }

    /** `Trilogy#query`: the next reply of the server. */
    method Query(sql: string) returns (r: Reply)
      modifies world
      ensures r == world.oracle.replyAt(old(world.cursor).queries)
      ensures world.cursor == old(world.cursor).(queries := old(world.cursor).queries + 1)
      ensures world.log == old(world.log) + [Queried(sql)]
    {
      r := world.oracle.replyAt(world.cursor.queries);
      world.cursor := world.cursor.(queries := world.cursor.queries + 1);
      world.log := world.log + [Queried(sql)];
    }

    /** `Trilogy#close`; `raised` tells whether it raised a `StandardError`. */
    method Close() returns (raised: bool)
      modifies world
      ensures raised == world.oracle.closeRaisesAt(old(world.cursor).closes)
      ensures world.cursor == old(world.cursor).(closes := old(world.cursor).closes + 1)
      ensures world.log == old(world.log) + [Closed(raised)]
    {
      raised := world.oracle.closeRaisesAt(world.cursor.closes);
      world.cursor := world.cursor.(closes := world.cursor.closes + 1);
      world.log := world.log + [Closed(raised)];
    }
  }
}
