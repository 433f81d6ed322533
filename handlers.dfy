/**
 * Callback-based stream handlers (pkg/interfaces/stream.go): StreamHandlerFunc, whose
 * callbacks may each be nil; ChainedStreamHandler, which forwards to a list of handlers in
 * order; and StreamFilter, which forwards only the chunks a predicate accepts.
 *
 * A user callback is represented by what can be observed of it: an invocation is recorded
 * as an Event naming the handler it belongs to, and the error a callback returns is given by
 * a `Replies` function of the handler and the call.
 */
module Handlers {
  import opened Wrappers
  import opened Errors
  import opened Stream

  /** What OnChunk and OnComplete deliver. */
  datatype Signal = ChunkSignal(chunk: StreamChunk) | CompleteSignal

  /** A callback invocation: OnChunk, OnComplete or OnError with its argument. */
  datatype Call = ChunkCall(chunk: StreamChunk) | CompleteCall | ErrorCall(err: Error)

  function SignalCall(s: Signal): Call {
    match s
    case ChunkSignal(c) => ChunkCall(c)
    case CompleteSignal => CompleteCall
  }

  /** The user callback of handler `handler` was invoked with `call`. */
  datatype Event = Event(handler: nat, call: Call)

  /** The error (None for nil) the callbacks of a handler return for a call. */
  type Replies = (nat, Call) -> Option<Error>

  datatype Handler =
    | /** A StreamHandlerFunc; each flag records whether that callback is non-nil. */
      Funcs(id: nat, chunkFunc: bool, completeFunc: bool, errorFunc: bool)
    | /** A ChainedStreamHandler. */
      Chained(handlers: seq<Handler>)
    | /** A StreamFilter. */
      Filter(handler: Handler, accepts: StreamChunk -> bool)

  /** The returned error and the callbacks invoked, in order. */
  datatype Outcome = Outcome(err: Option<Error>, events: seq<Event>)

  /** Whether a StreamHandlerFunc has a callback for the signal. */
  predicate HasCallback(h: Handler, s: Signal)
    requires h.Funcs?
  {
    if s.ChunkSignal? then h.chunkFunc else h.completeFunc
  }

  /**
   * OnChunk / OnComplete of any handler.  Only the signal's callback is ever invoked, and an
   * error returned is the reply of the last callback invoked.
   */
  function Deliver(h: Handler, s: Signal, replies: Replies): (r: Outcome)
    ensures forall k :: 0 <= k < |r.events| ==> r.events[k].call == SignalCall(s)
    ensures r.err.Some? ==> |r.events| > 0 && r.err == replies(r.events[|r.events| - 1].handler, SignalCall(s))
    decreases h, 1
  {
    match h
    case Funcs(id, _, _, _) =>
      if HasCallback(h, s) then Outcome(replies(id, SignalCall(s)), [Event(id, SignalCall(s))])
      else Outcome(None, [])
    case Chained(_) => DeliverFrom(h, 0, s, replies)
    case Filter(inner, p) =>
      if s.ChunkSignal? && !p(s.chunk) then Outcome(None, []) else Deliver(inner, s, replies)
  }

  /** The chain's loop from handler i on: stop at the first error, else go on to the next. */
  function DeliverFrom(h: Handler, i: nat, s: Signal, replies: Replies): (r: Outcome)
    requires h.Chained? && i <= |h.handlers|
    ensures forall k :: 0 <= k < |r.events| ==> r.events[k].call == SignalCall(s)
    ensures r.err.Some? ==> |r.events| > 0 && r.err == replies(r.events[|r.events| - 1].handler, SignalCall(s))
    decreases h, 0, |h.handlers| - i
  {
    if i == |h.handlers| then Outcome(None, [])
    else
      var first := Deliver(h.handlers[i], s, replies);
      if first.err.Some? then first
      else
        var rest := DeliverFrom(h, i + 1, s, replies);
        Outcome(rest.err, first.events + rest.events)
  }

  /** OnError of any handler: the ErrorFunc invocations it causes, in order. */
  function Notify(h: Handler, err: Error): (r: seq<Event>)
    ensures forall k :: 0 <= k < |r| ==> r[k].call == ErrorCall(err)
    decreases h, 1
  {
    match h
    case Funcs(id, _, _, hasError) => if hasError then [Event(id, ErrorCall(err))] else []
    case Chained(_) => NotifyFrom(h, 0, err)
    case Filter(inner, _) => Notify(inner, err)
  }

  /** The chain's OnError loop from handler i on. */
  function NotifyFrom(h: Handler, i: nat, err: Error): (r: seq<Event>)
    requires h.Chained? && i <= |h.handlers|
    ensures forall k :: 0 <= k < |r| ==> r[k].call == ErrorCall(err)
    decreases h, 0, |h.handlers| - i
  {
    if i == |h.handlers| then [] else Notify(h.handlers[i], err) + NotifyFrom(h, i + 1, err)
  }

  /** One step of the chain's loop: stop with the handler's outcome on an error, else continue after it. */
  lemma DeliverFromUnfold(h: Handler, i: nat, s: Signal, replies: Replies)
    requires h.Chained? && i < |h.handlers|
    ensures var first := Deliver(h.handlers[i], s, replies);
      var rest := DeliverFrom(h, i + 1, s, replies);
      DeliverFrom(h, i, s, replies) == if first.err.Some? then first else Outcome(rest.err, first.events + rest.events)
  {
  }

  // ----- reference definitions -----

  /** Every handler's events for the signal, one handler after the other. */
  function AllEvents(hs: seq<Handler>, s: Signal, replies: Replies): seq<Event>
    decreases |hs|
  {
    if hs == [] then [] else Deliver(hs[0], s, replies).events + AllEvents(hs[1..], s, replies)
  }

  /** Every handler's error notifications, one handler after the other. */
  function AllNotified(hs: seq<Handler>, err: Error): seq<Event>
    decreases |hs|
  {
    if hs == [] then [] else Notify(hs[0], err) + AllNotified(hs[1..], err)
  }

  // ----- the dispatcher -----

  /** Runs handler callbacks and records every invocation, in order, in `trace`. */
  class Dispatcher {
    var trace: seq<Event>

    constructor ()
      ensures trace == []
    {
      trace := [];
    }

    /** OnChunk of `h`. */
    method OnChunk(h: Handler, chunk: StreamChunk, replies: Replies) returns (err: Option<Error>)
      modifies this
      ensures err == Deliver(h, ChunkSignal(chunk), replies).err
      ensures trace == old(trace) + Deliver(h, ChunkSignal(chunk), replies).events
    {
      err := Dispatch(h, ChunkSignal(chunk), replies);
    }

    /** OnComplete of `h`. */
    method OnComplete(h: Handler, replies: Replies) returns (err: Option<Error>)
      modifies this
      ensures err == Deliver(h, CompleteSignal, replies).err
      ensures trace == old(trace) + Deliver(h, CompleteSignal, replies).events
    {
      err := Dispatch(h, CompleteSignal, replies);
    }

    /** The OnChunk / OnComplete methods of the three handler types. */
    method Dispatch(h: Handler, s: Signal, replies: Replies) returns (err: Option<Error>)
      modifies this
      ensures err == Deliver(h, s, replies).err
      ensures trace == old(trace) + Deliver(h, s, replies).events
      decreases h, 1
    {
      match h {
        case Funcs(id, _, _, _) =>
          if HasCallback(h, s) {
            trace := trace + [Event(id, SignalCall(s))];
            err := replies(id, SignalCall(s));
          } else {
            err := None;
          }
        case Chained(_) =>
          err := DispatchChain(h, s, replies);
        case Filter(inner, p) =>
          if s.ChunkSignal? && !p(s.chunk) {
            err := None;
          } else {
            err := Dispatch(inner, s, replies);
          }
      }
    }

    /** ChainedStreamHandler.OnChunk / OnComplete: handlers in order, returning the first error. */
    method DispatchChain(h: Handler, s: Signal, replies: Replies) returns (err: Option<Error>)
      requires h.Chained?
      modifies this
      ensures err == DeliverFrom(h, 0, s, replies).err
      ensures trace == old(trace) + DeliverFrom(h, 0, s, replies).events
      decreases h, 0
    {
      var hs := h.handlers;
      ghost var total := DeliverFrom(h, 0, s, replies);
      var i := 0;
      while i < |hs|
        invariant 0 <= i <= |hs|
        invariant old(trace) + total.events == trace + DeliverFrom(h, i, s, replies).events
        invariant total.err == DeliverFrom(h, i, s, replies).err
      {
        ghost var before := trace;
        ghost var first := Deliver(hs[i], s, replies);
        ghost var rest := DeliverFrom(h, i + 1, s, replies);
        DeliverFromUnfold(h, i, s, replies);
        var e := Dispatch(hs[i], s, replies);
        assert e == first.err && trace == before + first.events;
        if e.Some? {
          assert DeliverFrom(h, i, s, replies) == first;
          return e;
        }
        assert DeliverFrom(h, i, s, replies).events == first.events + rest.events;
        assert trace + rest.events == before + (first.events + rest.events);
        i := i + 1;
      }
      err := None;
    }

    /** OnError of `h`; it returns nothing and never stops early. */
    method OnError(h: Handler, e: Error)
      modifies this
      ensures trace == old(trace) + Notify(h, e)
      decreases h, 1
    {
      match h {
        case Funcs(id, _, _, hasError) =>
          if hasError {
            trace := trace + [Event(id, ErrorCall(e))];
          }
        case Chained(hs) =>
          var i := 0;
          while i < |hs|
            invariant 0 <= i <= |hs|
            invariant old(trace) + NotifyFrom(h, 0, e) == trace + NotifyFrom(h, i, e)
          {
            ghost var before := trace;
            OnError(hs[i], e);
            assert trace + NotifyFrom(h, i + 1, e) == before + NotifyFrom(h, i, e);
            i := i + 1;
          }
        case Filter(inner, _) =>
          OnError(inner, e);
      }
    }
  }

  // ----- lemmas -----

  /** From handler i on, the chain returns nil exactly when every remaining handler does, having then invoked them all. */
  lemma {:induction false} DeliverFromAllNil(hs: seq<Handler>, i: nat, s: Signal, replies: Replies)
    requires i <= |hs|
    ensures DeliverFrom(Chained(hs), i, s, replies).err.None? <==>
            forall j :: i <= j < |hs| ==> Deliver(hs[j], s, replies).err.None?
    ensures (forall j :: i <= j < |hs| ==> Deliver(hs[j], s, replies).err.None?) ==>
            DeliverFrom(Chained(hs), i, s, replies).events == AllEvents(hs[i..], s, replies)
    decreases |hs| - i
  {
    if i < |hs| {
      DeliverFromAllNil(hs, i + 1, s, replies);
      assert hs[i..][1..] == hs[i + 1..];
    }
  }

  /** From handler i on, the chain stops at the first handler k that returns an error, and returns that error. */
  lemma {:induction false} DeliverFromStops(hs: seq<Handler>, i: nat, k: nat, s: Signal, replies: Replies)
    requires i <= k < |hs|
    requires Deliver(hs[k], s, replies).err.Some?
    requires forall j :: i <= j < k ==> Deliver(hs[j], s, replies).err.None?
    ensures DeliverFrom(Chained(hs), i, s, replies) ==
            Outcome(Deliver(hs[k], s, replies).err, AllEvents(hs[i..k + 1], s, replies))
    decreases k - i
  {
    assert hs[i..k + 1][0] == hs[i];
    if i == k {
      assert hs[i..k + 1][1..] == [];
    } else {
      DeliverFromStops(hs, i + 1, k, s, replies);
      assert hs[i..k + 1][1..] == hs[i + 1..k + 1];
    }
  }

  /** ChainedStreamHandler: nil exactly when every handler returned nil, in which case all were invoked in order. */
  lemma ChainedAllNil(hs: seq<Handler>, s: Signal, replies: Replies)
    ensures Deliver(Chained(hs), s, replies).err.None? <==>
            forall j :: 0 <= j < |hs| ==> Deliver(hs[j], s, replies).err.None?
    ensures (forall j :: 0 <= j < |hs| ==> Deliver(hs[j], s, replies).err.None?) ==>
            Deliver(Chained(hs), s, replies).events == AllEvents(hs, s, replies)
  {
    DeliverFromAllNil(hs, 0, s, replies);
    assert hs[0..] == hs;
  }

  /** ChainedStreamHandler: the first handler k to fail ends the chain; handlers after it are not invoked. */
  lemma ChainedStopsAtFirstError(hs: seq<Handler>, k: nat, s: Signal, replies: Replies)
    requires k < |hs|
    requires Deliver(hs[k], s, replies).err.Some?
    requires forall j :: 0 <= j < k ==> Deliver(hs[j], s, replies).err.None?
    ensures Deliver(Chained(hs), s, replies) == Outcome(Deliver(hs[k], s, replies).err, AllEvents(hs[..k + 1], s, replies))
  {
    DeliverFromStops(hs, 0, k, s, replies);
    assert hs[0..k + 1] == hs[..k + 1];
  }

  /** From handler i on, OnError reaches every remaining handler, in order. */
  lemma {:induction false} NotifyFromAll(hs: seq<Handler>, i: nat, err: Error)
    requires i <= |hs|
    ensures NotifyFrom(Chained(hs), i, err) == AllNotified(hs[i..], err)
    decreases |hs| - i
  {
    if i < |hs| {
      NotifyFromAll(hs, i + 1, err);
      assert hs[i..][1..] == hs[i + 1..];
    }
  }

  /** Every handler's notifications occur in the concatenation. */
  lemma {:induction false} AllNotifiedContains(hs: seq<Handler>, err: Error, i: nat, e: Event)
    requires i < |hs| && e in Notify(hs[i], err)
    ensures e in AllNotified(hs, err)
    decreases |hs|
  {
    if i > 0 {
      AllNotifiedContains(hs[1..], err, i - 1, e);
    }
  }

  /** ChainedStreamHandler.OnError forwards to every handler in order, whatever they do. */
  lemma ChainedNotifiesAll(hs: seq<Handler>, err: Error)
    ensures Notify(Chained(hs), err) == AllNotified(hs, err)
    ensures forall i :: 0 <= i < |hs| && hs[i].Funcs? && hs[i].errorFunc ==>
              Event(hs[i].id, ErrorCall(err)) in Notify(Chained(hs), err)
  {
    NotifyFromAll(hs, 0, err);
    assert hs[0..] == hs;
    forall i | 0 <= i < |hs| && hs[i].Funcs? && hs[i].errorFunc
      ensures Event(hs[i].id, ErrorCall(err)) in Notify(Chained(hs), err)
    {
      AllNotifiedContains(hs, err, i, Event(hs[i].id, ErrorCall(err)));
    }
  }

  /** StreamFilter: a chunk reaches the wrapped handler iff the predicate accepts it; completion and errors always do. */
  lemma FilterGates(inner: Handler, p: StreamChunk -> bool, chunk: StreamChunk, err: Error, replies: Replies)
    ensures p(chunk) ==> Deliver(Filter(inner, p), ChunkSignal(chunk), replies) == Deliver(inner, ChunkSignal(chunk), replies)
    ensures !p(chunk) ==> Deliver(Filter(inner, p), ChunkSignal(chunk), replies) == Outcome(None, [])
    ensures Deliver(Filter(inner, p), CompleteSignal, replies) == Deliver(inner, CompleteSignal, replies)
    ensures Notify(Filter(inner, p), err) == Notify(inner, err)
  {
  }

  /** StreamHandlerFunc: a nil callback returns nil and invokes nothing. */
  lemma NilCallbacks(id: nat, chunk: StreamChunk, err: Error, replies: Replies)
    ensures Deliver(Funcs(id, false, false, false), ChunkSignal(chunk), replies) == Outcome(None, [])
    ensures Deliver(Funcs(id, false, false, false), CompleteSignal, replies) == Outcome(None, [])
    ensures Notify(Funcs(id, false, false, false), err) == []
  {
  }
}
