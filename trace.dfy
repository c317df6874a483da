/** Reading an event log: how many events of a kind it holds, and the delays it slept. */
module Trace {
  import opened Trilogy

  /** The kinds of event the log is counted by. `Reconnects` are the connection
      attempts that installed a new raw connection. */
  datatype Kind = Queries | Warnings | Sleeps | Closes | ConnectAttempts | Reconnects

  predicate Is(e: Event, k: Kind) {
    match k
    case Queries => e.Queried?
    case Warnings => e.Warned?
    case Sleeps => e.Slept?
    case Closes => e.Closed?
    case ConnectAttempts => e.Connected?
    case Reconnects => e.Connected? && e.accepted
  }

  /** The number of events in `es` of kind `k`. */
  function Count(es: seq<Event>, k: Kind): (n: nat)
    ensures n <= |es|
  {
    if es == [] then 0
    else (if Is(es[0], k) then 1 else 0) + Count(es[1..], k)
  }

  lemma {:induction false} CountAppend(a: seq<Event>, b: seq<Event>, k: Kind)
    ensures Count(a + b, k) == Count(a, k) + Count(b, k)
  {
    if a == [] {
      assert a + b == b;
    } else {
      assert (a + b)[1..] == a[1..] + b;
      CountAppend(a[1..], b, k);
    }
  }

  /** Only events of kind `k` are counted. */
  lemma {:induction false} CountNone(es: seq<Event>, k: Kind)
    requires forall i :: 0 <= i < |es| ==> !Is(es[i], k)
    ensures Count(es, k) == 0
  {
    if es != [] {
      CountNone(es[1..], k);
    }
  }

  lemma AppendAssociates(a: seq<Event>, b: seq<Event>, c: seq<Event>)
    ensures (a + b) + c == a + (b + c)
  {
  }

  /** The durations of the `Sleep` events of `es`, in order. */
  function Delays(es: seq<Event>): (ds: seq<real>)
    ensures |ds| == Count(es, Sleeps)
  {
    if es == [] then []
    else (if es[0].Slept? then [es[0].seconds] else []) + Delays(es[1..])
  }

  lemma {:induction false} DelaysAppend(a: seq<Event>, b: seq<Event>)
    ensures Delays(a + b) == Delays(a) + Delays(b)
  {
    if a == [] {
      assert a + b == b;
    } else {
      assert (a + b)[1..] == a[1..] + b;
      DelaysAppend(a[1..], b);
    }
  }
}
