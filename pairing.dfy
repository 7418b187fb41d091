/**
 * The pairing state machine of channel.py, on values. `State<R>` is the
 * closed set of states (the Standby, WriteWaiting and ReadWaiting classes);
 * each handler of a state class is one function from the state before to a
 * `Step`: the state after, the handler's reply, and the final value of the
 * request that left the waiting state, if one did. The class `Channel` in
 * module Channels runs the same machine on request objects.
 */
module Pairing {
  import opened Wrappers
  import opened Responses
  import opened Requests

  /**
   * A channel holds exactly one state; a waiting state holds exactly one
   * suspended request, so there is never a waiting writer and a waiting reader
   * at the same time.
   */
  datatype State<R> = Standby | WriteWaiting(held: R) | ReadWaiting(held: R)

  /** The invariant every reachable state keeps: the suspended request is unfinished, and a waiting writer carries a payload. */
  predicate Ready(s: State<ReqView>) {
    match s
    case Standby => true
    case WriteWaiting(w) => CanWrite(w)
    case ReadWaiting(r) => InFlight(r)
  }

  datatype Step = Step(next: State<ReqView>, reply: Reply, settled: Option<ReqView>)

  /**
   * How a request that leaves a waiting state has been dealt with: either it
   * was finished, with at most one message written into it, or its connection
   * was lost and nothing was written into it.
   */
  predicate Resolved(before: ReqView, after: ReqView) {
    && InFlight(before)
    && after.args == before.args
    && (|| (before.live && after.live && after.finished
            && before.body <= after.body && |after.body| <= |before.body| + 1)
        || (!after.live && !after.finished && after.body == before.body))
  }

  /**
   * Bookkeeping of one step: nothing is released from Standby; a step that
   * stays in a waiting state changes nothing at all; a step that leaves a
   * waiting state releases exactly the suspended request, resolved.
   */
  predicate Accounted(s: State<ReqView>, st: Step) {
    if s.Standby? then st.settled.None?
    else if st.next.Standby? then st.settled.Some? && Resolved(s.held, st.settled.value)
    else st.next == s && st.settled.None?
  }

  /** `write(request)` of Standby (channel.py:64-66), WriteWaiting (85-87) and ReadWaiting (121-131). */
  function OnWrite(s: State<ReqView>, incoming: ReqView): (st: Step)
    requires Ready(s) && CanWrite(incoming)
    ensures Ready(st.next) && Accounted(s, st)
    // the first writer is suspended and kept as it is
    ensures s.Standby? ==> st.next == WriteWaiting(incoming) && st.reply == NotDoneYet
    // a second writer is refused and the waiting writer is left alone
    ensures s.WriteWaiting? ==> st.next == s && st.reply == NoResource
    // the pairing completes exactly when the waiting reader is still connected
    ensures s.ReadWaiting? ==> (st.next.Standby? <==> s.held.live)
    ensures s.ReadWaiting? && s.held.live ==>
              && st.settled.Some?
              && st.settled.value.body == s.held.body + [Payload(incoming.args[DataField])]
              && st.settled.value.finished
              && st.reply == Sent(Payload(""))
    ensures s.ReadWaiting? && !s.held.live ==> st.reply == Sent(Envelope(PeerDisconnected))
  {
    match s
    case Standby => Step(WriteWaiting(incoming), NotDoneYet, None)
    case WriteWaiting(_) => Step(s, NoResource, None)
    case ReadWaiting(reader) =>
      var written := Written(reader, Payload(incoming.args[DataField]));
      match Finished(written)
      case None => Step(s, Sent(Envelope(PeerDisconnected)), None)
      case Some(done) => Step(Standby, Sent(Payload("")), Some(done))
  }

  /** `read(request)` of Standby (channel.py:68-70), WriteWaiting (89-98) and ReadWaiting (133-135). */
  function OnRead(s: State<ReqView>, incoming: ReqView): (st: Step)
    requires Ready(s) && InFlight(incoming)
    ensures Ready(st.next) && Accounted(s, st)
    ensures s.Standby? ==> st.next == ReadWaiting(incoming) && st.reply == NotDoneYet
    ensures s.ReadWaiting? ==> st.next == s && st.reply == NoResource
    ensures s.WriteWaiting? ==> (st.next.Standby? <==> s.held.live)
    // the reader gets exactly the stored payload; the writer is finished with nothing written
    ensures s.WriteWaiting? && s.held.live ==>
              && st.reply == Sent(Payload(s.held.args[DataField]))
              && st.settled == Some(s.held.(finished := true))
    ensures s.WriteWaiting? && !s.held.live ==> st.reply == Sent(Envelope(PeerDisconnected))
  {
    match s
    case Standby => Step(ReadWaiting(incoming), NotDoneYet, None)
    case ReadWaiting(_) => Step(s, NoResource, None)
    case WriteWaiting(writer) =>
      match Finished(writer)
      case None => Step(s, Sent(Envelope(PeerDisconnected)), None)
      case Some(done) => Step(Standby, Sent(Payload(writer.args[DataField])), Some(done))
  }

  /**
   * `timeout()` of Standby (channel.py:72-73), WriteWaiting (100-104) and
   * ReadWaiting (137-141). When the waiting request's connection is gone the
   * timeout message is dropped, `finish()` raises, the exception escapes the
   * handler and the state is left as it was.
   */
  function OnTimeout(s: State<ReqView>): (st: Step)
    requires Ready(s)
    ensures Ready(st.next) && Accounted(s, st)
    ensures s.Standby? ==> st.next == Standby && st.reply == Done
    ensures !s.Standby? ==> (st.next.Standby? <==> s.held.live)
    ensures !s.Standby? && s.held.live ==>
              && st.reply == Done
              && st.settled.Some?
              && st.settled.value.body == s.held.body + [Envelope(TimedOut)]
              && st.settled.value.finished
    ensures !s.Standby? && !s.held.live ==> st.reply == Raised
  {
    match s
    case Standby => Step(Standby, Done, None)
    case _ =>
      var written := Written(s.held, Envelope(TimedOut));
      match Finished(written)
      case None => Step(s, Raised, None)
      case Some(done) => Step(Standby, Done, Some(done))
  }

  /**
   * `_waiting_closed` of WriteWaiting (channel.py:106-108) and ReadWaiting
   * (143-145): the suspended request's connection was lost. The channel goes
   * back to Standby and nothing is written into the lost request. In Standby
   * there is nobody to lose, and the event changes nothing.
   */
  function OnWaitingClosed(s: State<ReqView>): (st: Step)
    requires Ready(s)
    ensures Ready(st.next) && Accounted(s, st)
    ensures st.next == Standby && st.reply == Done
    ensures !s.Standby? ==> st.settled == Some(s.held.(live := false))
  {
    match s
    case Standby => Step(Standby, Done, None)
    case _ => Step(Standby, Done, Some(s.held.(live := false)))
  }

  /**
   * The channel's single timeout call: Disarmed stands for no call at all and
   * for a call that has already fired or been cancelled, which the source
   * treats alike (channel.py:29-30, 39).
   */
  datatype Timer = Disarmed | Armed(deadline: int)

  /**
   * The timer part of `timeout_in(delay)` for a positive delay (channel.py:35-40):
   * an armed call is reset, otherwise a new one is scheduled; either way one
   * call is armed, due `delay` after `now`.
   */
  function Rearm(t: Timer, now: int, delay: int): (r: Timer)
    requires delay > 0
    ensures r == Armed(now + delay)
    ensures r.deadline > now
  {
    match t
    case Armed(_) => t.(deadline := now + delay)
    case Disarmed => Armed(now + delay)
  }
}
