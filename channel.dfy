/**
 * The `Channel` class of channel.py. Its `state` field holds the current
 * state together with the suspended request object, and every handler
 * reassigns that field in place, as the state classes of the source do with
 * `self._channel.state = ...`. Each method is specified by the step function
 * of module Pairing applied to the value of the channel before the call.
 *
 * Where the source differs from what its comments say, the model follows the
 * comments:
 * - `timeout` calls `self._state.timeout()` (channel.py:32) although the field
 *   is `state`; the model dispatches on `state`.
 * - `except TypeError, AlreadyCancelled, AlreadyCalled` (channel.py:28, 38) is
 *   a SyntaxError, since only one name may follow the comma, so the file does
 *   not compile; the comments at channel.py:29-30 and 39 say that no call, or
 *   a call already fired or cancelled, is fine, and the model treats those
 *   cases so.
 * - `reactor` is used at channel.py:40 but never imported; the model assumes
 *   the Twisted reactor's `callLater`.
 */
module Channels {
  import opened Wrappers
  import opened Responses
  import opened Requests
  import opened Pairing

  class Channel {
    const name: string
    var state: State<Request>
    var timer: Timer

    /** The request object the current state holds, if any. */
    ghost function Stored(): set<Request>
      reads this
    {
      match state
      case Standby => {}
      case WriteWaiting(w) => {w}
      case ReadWaiting(r) => {r}
    }

    /** The state with the suspended request replaced by its current value. */
    ghost function Abs(): State<ReqView>
      reads this, Stored()
    {
      match state
      case Standby => Standby
      case WriteWaiting(w) => WriteWaiting(w.View())
      case ReadWaiting(r) => ReadWaiting(r.View())
    }

    ghost predicate Valid()
      reads this, Stored()
    {
      Ready(Abs())
    }

    /** channel.py:13-17: a new channel is in Standby with no timeout call. */
    constructor (name: string)
      ensures this.name == name && state == Standby && timer == Disarmed
      ensures Valid()
    {
      this.name := name;
      state := Standby;
      timer := Disarmed;
    }

    /** channel.py:19-20 and the `write` handlers of the three states. */
    method Write(request: Request) returns (reply: Reply)
      requires Valid() && request !in Stored() && CanWrite(request.View())
      modifies this`state, Stored()
      ensures Valid()
      ensures var st := OnWrite(old(Abs()), old(request.View()));
              && reply == st.reply
              && Abs() == st.next
              && (st.settled.Some? ==> old(state).held.View() == st.settled.value)
      ensures old(state).Standby? ==> state == WriteWaiting(request)
      ensures !old(state).Standby? ==> state == Standby || state == old(state)
    {
      match state
      case Standby =>
        state := WriteWaiting(request);
        reply := NotDoneYet;
      case WriteWaiting(_) =>
        reply := NoResource;
      case ReadWaiting(reader) =>
        reader.Write(Payload(request.args[DataField]));
        var ok := reader.Finish();
        if ok {
          state := Standby;
          reply := Sent(Payload(""));
        } else {
          // the waiting reader's connection is gone; the state is kept
          reply := Sent(Envelope(PeerDisconnected));
        }
    }

    /** channel.py:22-23 and the `read` handlers of the three states. */
    method Read(request: Request) returns (reply: Reply)
      requires Valid() && request !in Stored() && InFlight(request.View())
      modifies this`state, Stored()
      ensures Valid()
      ensures var st := OnRead(old(Abs()), old(request.View()));
              && reply == st.reply
              && Abs() == st.next
              && (st.settled.Some? ==> old(state).held.View() == st.settled.value)
      ensures old(state).Standby? ==> state == ReadWaiting(request)
      ensures !old(state).Standby? ==> state == Standby || state == old(state)
    {
      match state
      case Standby =>
        state := ReadWaiting(request);
        reply := NotDoneYet;
      case ReadWaiting(_) =>
        reply := NoResource;
      case WriteWaiting(writer) =>
        var data := writer.args[DataField];
        var ok := writer.Finish();
        if ok {
          state := Standby;
          reply := Sent(Payload(data));
        } else {
          // the waiting writer's connection is gone; the state is kept
          reply := Sent(Envelope(PeerDisconnected));
        }
    }

    /**
     * channel.py:25-32: cancel the timeout call, tolerating none and one that
     * already fired or was cancelled, then run the state's timeout handler.
     */
    method Timeout() returns (reply: Reply)
      requires Valid()
      modifies this, Stored()
      ensures Valid() && timer == Disarmed
      ensures var st := OnTimeout(old(Abs()));
              && reply == st.reply
              && Abs() == st.next
              && (st.settled.Some? ==> old(state).held.View() == st.settled.value)
      ensures state == Standby || state == old(state)
    {
      timer := Disarmed;
      match state
      case Standby =>
        reply := Done;
      case _ =>
        var waiting := state.held;
        waiting.Write(Envelope(TimedOut));
        var ok := waiting.Finish();
        if ok {
          state := Standby;
          reply := Done;
        } else {
          // RuntimeError from finish() escapes; the state is kept
          reply := Raised;
        }
    }

    /**
     * channel.py:34-43: with a positive delay, reset the armed call or
     * schedule a new one; otherwise time out at once.
     */
    method TimeoutIn(delay: int, now: int) returns (reply: Reply)
      requires Valid()
      modifies this, Stored()
      ensures Valid()
      ensures delay > 0 ==>
                timer == Armed(now + delay) && state == old(state) && Abs() == old(Abs()) && reply == Done
      ensures delay <= 0 ==>
                var st := OnTimeout(old(Abs()));
                && timer == Disarmed
                && reply == st.reply
                && Abs() == st.next
                && (st.settled.Some? ==> old(state).held.View() == st.settled.value)
                && (state == Standby || state == old(state))
    {
      if delay > 0 {
        timer := Rearm(timer, now, delay);
        reply := Done;
      } else {
        reply := Timeout();
      }
    }

    /**
     * The client of `request` disconnects. When the current state holds that
     * request, the errback it registered with `notifyFinish()` (channel.py:82,
     * 118) runs `_waiting_closed` and the channel returns to Standby; for any
     * other request, in particular one already answered, nothing happens to
     * the channel. Nothing is written into the lost request.
     */
    method Disconnect(request: Request)
      requires Valid()
      modifies this`state, request
      ensures Valid() && timer == old(timer)
      ensures request.View() == old(request.View()).(live := false)
      ensures request in old(Stored()) ==>
                && state == Standby
                && OnWaitingClosed(old(Abs())).settled == Some(request.View())
      ensures request !in old(Stored()) ==> state == old(state) && Abs() == old(Abs())
    {
      request.LoseConnection();
      if !state.Standby? && state.held == request {
        state := Standby;
      }
    }

    /** channel.py:45-46: an empty stub; closing leaves the channel as it is. */
    method Close()
      ensures state == old(state) && timer == old(timer)
    {
    }

    /** channel.py:48-52: an empty stub for both branches. */
    method CloseIn(delay: int)
      ensures state == old(state) && timer == old(timer)
    {
    }
  }
}
