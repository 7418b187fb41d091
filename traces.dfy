/**
 * Runs of the pairing machine over sequences of events. A run records every
 * reply, every request released from a waiting state together with its value
 * when it was suspended and when it was released, and the requests suspended
 * along the way. The facts proved here are the ones that concern
 * several events: no suspended request is ever dropped, a pairing hands over
 * the payload whichever side comes first, and a timeout racing a disconnect
 * resolves the waiting request once.
 */
module Traces {
  import opened Wrappers
  import opened Responses
  import opened Requests
  import opened Pairing

  /** One event on a channel; a request is given by its value when the event happens. */
  datatype Event = Write(request: ReqView) | Read(request: ReqView) | Timeout | WaitingClosed

  /** Events the web server can deliver: rendered requests are unfinished, and a write carries a payload. */
  predicate Admissible(e: Event) {
    match e
    case Write(v) => CanWrite(v)
    case Read(v) => InFlight(v)
    case _ => true
  }

  /** Dispatch of one event to the handler of the current state. */
  function Apply(s: State<ReqView>, e: Event): (st: Step)
    requires Ready(s) && Admissible(e)
    ensures Ready(st.next) && Accounted(s, st)
  {
    match e
    case Write(v) => OnWrite(s, v)
    case Read(v) => OnRead(s, v)
    case Timeout => OnTimeout(s)
    case WaitingClosed => OnWaitingClosed(s)
  }

  datatype Settlement = Settlement(before: ReqView, after: ReqView)

  /**
   * The outcome of a run: the final state, one reply per event, the requests
   * released in order, and the requests suspended in order.
   */
  datatype Trace = Trace(final: State<ReqView>, replies: seq<Reply>, settled: seq<Settlement>, entered: seq<ReqView>)

  /** The requests a state holds. */
  function Held(s: State<ReqView>): seq<ReqView> {
    if s.Standby? then [] else [s.held]
  }

  /** The suspended values of released requests, in order of release. */
  function Befores(settled: seq<Settlement>): seq<ReqView> {
    seq(|settled|, k requires 0 <= k < |settled| => settled[k].before)
  }

  /**
   * Runs `events` from `s`. Every released request has been resolved, and
   * the requests held at the start followed by those suspended during the run
   * are, in the same order, the requests released followed by the one still
   * held: each suspended request is released exactly once or is still held,
   * and none is silently dropped.
   */
  function Run(s: State<ReqView>, events: seq<Event>): (t: Trace)
    requires Ready(s)
    requires forall i :: 0 <= i < |events| ==> Admissible(events[i])
    ensures Ready(t.final) && |t.replies| == |events|
    ensures forall k :: 0 <= k < |t.settled| ==> Resolved(t.settled[k].before, t.settled[k].after)
    ensures Held(s) + t.entered == Befores(t.settled) + Held(t.final)
    decreases |events|
  {
    if events == [] then Trace(s, [], [], [])
    else
      var st := Apply(s, events[0]);
      var rest := Run(st.next, events[1..]);
      var released := if st.settled.Some? then [Settlement(s.held, st.settled.value)] else [];
      var entered := if s.Standby? && !st.next.Standby? then [st.next.held] else [];
      assert Held(s) + entered == Befores(released) + Held(st.next);
      assert Befores(released + rest.settled) == Befores(released) + Befores(rest.settled);
      assert Held(s) + (entered + rest.entered) == Befores(released) + (Held(st.next) + rest.entered);
      Trace(rest.final, [st.reply] + rest.replies, released + rest.settled, entered + rest.entered)
  }

  /**
   * From Standby, requests leave the channel in the order they were
   * suspended: the k-th released request is the k-th suspended one, and a
   * request still held at the end is the last one suspended.
   */
  lemma ReleasedInOrder(events: seq<Event>)
    requires forall i :: 0 <= i < |events| ==> Admissible(events[i])
    ensures var t := Run(Standby, events);
            && |t.entered| == |t.settled| + |Held(t.final)|
            && (forall k :: 0 <= k < |t.settled| ==> t.settled[k].before == t.entered[k])
            && (!t.final.Standby? ==> t.final.held == t.entered[|t.entered| - 1])
  {
  }

  /**
   * From Standby, a connected writer and a connected reader pair in either
   * order: the channel ends in Standby, and the reader receives exactly the
   * writer's payload, as the reply to its read when the writer came first and
   * written into its suspended request when the reader came first.
   */
  lemma OrderIndependent(w: ReqView, r: ReqView)
    requires CanWrite(w) && InFlight(r) && w.live && r.live
    ensures var t := Run(Standby, [Write(w), Read(r)]);
            && t.final == Standby
            && t.replies == [NotDoneYet, Sent(Payload(w.args[DataField]))]
            && t.settled == [Settlement(w, w.(finished := true))]
    ensures var t := Run(Standby, [Read(r), Write(w)]);
            && t.final == Standby
            && t.replies == [NotDoneYet, Sent(Payload(""))]
            && t.settled == [Settlement(r, r.(body := r.body + [Payload(w.args[DataField])], finished := true))]
  {
    var p := w.args[DataField];
    var writeFirst := [Write(w), Read(r)];
    assert writeFirst[1..] == [Read(r)];
    assert Run(WriteWaiting(w), [Read(r)]).final == Standby;
    var readFirst := [Read(r), Write(w)];
    assert readFirst[1..] == [Write(w)];
    assert Run(ReadWaiting(r), [Write(w)]).final == Standby;
  }

  /**
   * A timeout and a disconnect racing for the same connected waiting request:
   * whichever comes first resolves it and returns the channel to Standby, and
   * the second finds Standby and changes nothing.
   */
  lemma TimeoutDisconnectRace(s: State<ReqView>)
    requires Ready(s) && !s.Standby? && s.held.live
    ensures var t := Run(s, [Timeout, WaitingClosed]);
            && t.final == Standby
            && t.replies == [Done, Done]
            && t.settled == [Settlement(s.held, s.held.(body := s.held.body + [Envelope(TimedOut)], finished := true))]
    ensures var t := Run(s, [WaitingClosed, Timeout]);
            && t.final == Standby
            && t.replies == [Done, Done]
            && t.settled == [Settlement(s.held, s.held.(live := false))]
  {
  }
}
