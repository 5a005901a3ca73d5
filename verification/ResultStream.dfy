/**
 * The stream of results of one request: a channel with room for 32 that drops what does not fit, so that a slow reader
 * never holds up the connection, and a cleanup that takes effect once.
 */
module ResultStream {

  const CAPACITY: nat := 32

  datatype Event = Publish(payload: string) | Read | Cleanup

  /** `closes` counts how often the channel has been closed; closing it twice would be a failure. */
  datatype Stream = Stream(buffer: seq<string>, delivered: seq<string>, subscribed: bool, closes: nat)

  function Opened(): Stream {
    Stream([], [], true, 0)
  }

  function Next(s: Stream, e: Event): Stream {
    match e
    case Publish(payload) =>
      if s.subscribed && |s.buffer| < CAPACITY then s.(buffer := s.buffer + [payload]) else s
    case Read =>
      if s.buffer == [] then s else s.(buffer := s.buffer[1..], delivered := s.delivered + [s.buffer[0]])
    case Cleanup =>
      if s.subscribed then s.(subscribed := false, closes := s.closes + 1) else s
  }

  function Run(events: seq<Event>): Stream {
    if events == [] then Opened() else Next(Run(events[..|events| - 1]), events[|events| - 1])
  }

  /** Everything published for the request before the cleanup. */
  function Published(events: seq<Event>): seq<string> {
    if events == [] then []
    else
      var before, last := events[..|events| - 1], events[|events| - 1];
      Published(before) + if last.Publish? && Cleanup !in before then [last.payload] else []
  }

  predicate IsSubsequence(a: seq<string>, b: seq<string>) {
    if a == [] then true
    else if b == [] then false
    else if a[|a| - 1] == b[|b| - 1] then IsSubsequence(a[..|a| - 1], b[..|b| - 1])
    else IsSubsequence(a, b[..|b| - 1])
  }

  // What the channel does to the stream of results

  /** What has not been dropped: the results read and the results waiting. */
  function Kept(s: Stream): seq<string> {
    s.delivered + s.buffer
  }

  predicate IsDropped(s: Stream, e: Event) {
    e.Publish? && s.subscribed && |s.buffer| >= CAPACITY
  }

  lemma KeptAfter(s: Stream, e: Event)
    ensures Kept(Next(s, e)) == Kept(s) + if e.Publish? && s.subscribed && !IsDropped(s, e) then [e.payload] else []
  {
  }

  lemma {:induction false} SubsequenceOfMore(a: seq<string>, b: seq<string>, x: string)
    requires IsSubsequence(a, b)
    ensures IsSubsequence(a, b + [x])
    decreases |b|, 1
  {
    assert (b + [x])[..|b|] == b;
    if a != [] && a[|a| - 1] == x {
      SubsequenceDropsLast(a, b);
    }
  }

  lemma {:induction false} SubsequenceDropsLast(a: seq<string>, b: seq<string>)
    requires a != [] && IsSubsequence(a, b)
    ensures IsSubsequence(a[..|a| - 1], b)
    decreases |b|, 0
  {
    var last := b[|b| - 1];
    assert b == b[..|b| - 1] + [last];
    if a[|a| - 1] != last {
      SubsequenceDropsLast(a, b[..|b| - 1]);
    }
    SubsequenceOfMore(a[..|a| - 1], b[..|b| - 1], last);
  }

  lemma SubsequenceOfBothMore(a: seq<string>, b: seq<string>, x: string)
    requires IsSubsequence(a, b)
    ensures IsSubsequence(a + [x], b + [x])
  {
  }

  /** The positions in `b` of the members of `a`, in order. */
  predicate Embeds(at: seq<nat>, a: seq<string>, b: seq<string>) {
    && |at| == |a|
    && (forall i :: 0 <= i < |at| ==> at[i] < |b| && b[at[i]] == a[i])
    && (forall i, j :: 0 <= i < j < |at| ==> at[i] < at[j])
  }

  /** Being a subsequence is exactly to be an in-order selection: the members stand at increasing positions. */
  lemma SubsequenceIffEmbeds(a: seq<string>, b: seq<string>)
    ensures IsSubsequence(a, b) <==> exists at :: Embeds(at, a, b)
  {
    if IsSubsequence(a, b) {
      var at := Positions(a, b);
    }
    forall at | Embeds(at, a, b)
      ensures IsSubsequence(a, b)
    {
      SelectionIsSubsequence(at, a, b);
    }
  }

  lemma {:induction false} Positions(a: seq<string>, b: seq<string>) returns (at: seq<nat>)
    requires IsSubsequence(a, b)
    ensures Embeds(at, a, b)
    decreases |b|
  {
    if a == [] {
      at := [];
    } else if a[|a| - 1] == b[|b| - 1] {
      var before := Positions(a[..|a| - 1], b[..|b| - 1]);
      at := before + [|b| - 1];
    } else {
      at := Positions(a, b[..|b| - 1]);
    }
  }

  lemma {:induction false} SelectionIsSubsequence(at: seq<nat>, a: seq<string>, b: seq<string>)
    requires Embeds(at, a, b)
    ensures IsSubsequence(a, b)
    decreases |b|
  {
    if a != [] {
      assert at[|at| - 1] < |b|;
      if a[|a| - 1] == b[|b| - 1] {
        SelectionIsSubsequence(at[..|at| - 1], a[..|a| - 1], b[..|b| - 1]);
      } else {
        SelectionIsSubsequence(at, a, b[..|b| - 1]);
      }
    }
  }

  /** Cleanups after the first one do nothing, so the channel is never closed twice. */
  lemma {:induction false} ClosedOnce(events: seq<Event>)
    ensures Run(events).subscribed <==> Cleanup !in events
    ensures Run(events).closes == if Cleanup in events then 1 else 0
  {
    if events != [] {
      var before := events[..|events| - 1];
      assert events == before + [events[|events| - 1]];
      ClosedOnce(before);
    }
  }

  lemma {:induction false} BufferFits(events: seq<Event>)
    ensures |Run(events).buffer| <= 32
  {
    if events != [] {
      BufferFits(events[..|events| - 1]);
    }
  }

  function Publishes(payloads: seq<string>): (events: seq<Event>)
    ensures |events| == |payloads|
  {
    seq(|payloads|, i requires 0 <= i < |payloads| => Publish(payloads[i]))
  }

  /** A reader that does not read finds the first 32 results when it comes back, and no later ones. */
  lemma {:induction false} FirstResultsWait(payloads: seq<string>)
    ensures Run(Publishes(payloads)).buffer == if |payloads| <= 32 then payloads else payloads[..32]
    ensures Run(Publishes(payloads)).delivered == []
  {
    if payloads != [] {
      var before, events := payloads[..|payloads| - 1], Publishes(payloads);
      FirstResultsWait(before);
      ClosedOnce(Publishes(before));
      assert events[..|events| - 1] == Publishes(before);
      assert payloads == before + [payloads[|payloads| - 1]];
    }
  }

  /** For every schedule, what was read and what is still buffered is an in-order selection of what was published. */
  lemma {:induction false} StreamIsInOrder(events: seq<Event>)
    ensures IsSubsequence(Run(events).delivered + Run(events).buffer, Published(events))
  {
    if events == [] {
      assert Kept(Run(events)) == [];
    } else {
      hide IsSubsequence;
      var before, last := events[..|events| - 1], events[|events| - 1];
      StreamIsInOrder(before);
      ClosedOnce(before);
      KeptAfter(Run(before), last);
      hide Next;
      if last.Publish? && Run(before).subscribed {
        if IsDropped(Run(before), last) {
          SubsequenceOfMore(Kept(Run(before)), Published(before), last.payload);
        } else {
          SubsequenceOfBothMore(Kept(Run(before)), Published(before), last.payload);
        }
      } else {
        assert Kept(Run(events)) == Kept(Run(before)) && Published(events) == Published(before);
      }
    }
  }

  // When nothing is lost

  /** The buffer has room whenever a result arrives. */
  predicate NeverFull(events: seq<Event>) {
    events == []
    || (NeverFull(events[..|events| - 1]) && !IsDropped(Run(events[..|events| - 1]), events[|events| - 1]))
  }

  /**
   * A dropped result is gone for good: the stream is complete if and only if the buffer never was full at a publish.
   */
  lemma {:induction false} LosslessIffNeverFull(events: seq<Event>)
    ensures Run(events).delivered + Run(events).buffer == Published(events) <==> NeverFull(events)
    ensures |Run(events).delivered + Run(events).buffer| <= |Published(events)|
    ensures !NeverFull(events) ==> |Run(events).delivered + Run(events).buffer| < |Published(events)|
  {
    if events != [] {
      var before, last := events[..|events| - 1], events[|events| - 1];
      LosslessIffNeverFull(before);
      ClosedOnce(before);
      KeptAfter(Run(before), last);
      hide Next;
    }
  }

  /** The same schedule on a channel that refuses nothing. */
  function Unbounded(events: seq<Event>): Stream {
    if events == [] then Opened()
    else
      var s, last := Unbounded(events[..|events| - 1]), events[|events| - 1];
      if last.Publish? && s.subscribed then s.(buffer := s.buffer + [last.payload]) else Next(s, last)
  }

  predicate BacklogFits(events: seq<Event>) {
    |Unbounded(events).buffer| <= CAPACITY && (events == [] || BacklogFits(events[..|events| - 1]))
  }

  /**
   * In terms of the schedule alone: nothing is lost if and only if a channel that refuses nothing would never have had
   * more than 32 results waiting, and then the two channels behave alike.
   */
  lemma {:induction false} LosslessIffBacklogFits(events: seq<Event>)
    ensures NeverFull(events) <==> BacklogFits(events)
    ensures NeverFull(events) ==> Run(events) == Unbounded(events)
  {
    if events != [] {
      var before := events[..|events| - 1];
      LosslessIffBacklogFits(before);
      BufferFits(before);
    }
  }

  // The subscription object

  class Subscription {
    var results: seq<string>
    var delivered: seq<string>
    var subscribed: bool
    var cleaned: bool
    var closes: nat

    constructor ()
      ensures Valid() && State() == Opened()
    {
      results, delivered, subscribed, cleaned, closes := [], [], true, false, 0;
    }

    /** The guard of the cleanup says whether the subscription has ended and the channel is closed. */
    predicate Valid()
      reads this
    {
      subscribed == !cleaned && closes == if cleaned then 1 else 0
    }

    function State(): Stream
      reads this
    {
      Stream(results, delivered, subscribed, closes)
    }

    /** The callback of the connection, which calls it only while the subscription lasts. */
    method OnMessage(payload: string)
      requires Valid()
      modifies this
      ensures Valid() && State() == Next(old(State()), Publish(payload))
    {
      if !subscribed {
        return;
      }
      if |results| < CAPACITY {
        results := results + [payload];
      }
    }

    /** A read that does not wait; `None` stands for an empty channel, open or closed. */
    method Receive() returns (r: Received)
      requires Valid()
      modifies this
      ensures Valid() && State() == Next(old(State()), Read)
      ensures r == if old(results) == [] then Nothing else Result(old(results)[0])
    {
      if results == [] {
        return Nothing;
      }
      r := Result(results[0]);
      delivered := delivered + [results[0]];
      results := results[1..];
    }

    method Close()
      requires Valid() && closes == 0
      modifies this`closes
      ensures closes == 1
    {
      closes := closes + 1;
    }

    /** Runs once; every later call does nothing, so the channel is never closed twice. */
    method CleanUp()
      requires Valid()
      modifies this
      ensures Valid() && State() == Next(old(State()), Cleanup)
    {
      if cleaned {
        return;
      }
      Close();
      cleaned := true;
      subscribed := false;
    }
  }

  datatype Received = Nothing | Result(value: string)
}
