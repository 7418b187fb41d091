/**
 * An HTTP request as the channel sees it: its form fields, whether its
 * connection is still up, what has been written into its body and whether it
 * has been finished. This is the part of Twisted's `Request` that channel.py
 * relies on: writing to a request whose connection is gone is silently
 * dropped, and finishing such a request raises RuntimeError.
 */
module Requests {
  import opened Wrappers
  import opened Responses

  /** Name of the form field carrying the payload (`request.args['data'][0]`). */
  const DataField: string := "data"
  /** Name of the form field asking for a close (`'close' in request.args`). */
  const CloseField: string := "close"

  /**
   * The value of a request at one instant. `args` maps each form field to its
   * first value, which is all the source ever reads (`args[...][0]`).
   */
  datatype ReqView = ReqView(args: map<string, string>, live: bool, body: seq<Message>, finished: bool)

  /** A request still being served: nobody has finished it yet. */
  predicate InFlight(v: ReqView) {
    !v.finished
  }

  /** A request that can be stored as a waiting writer: in flight and carrying a payload. */
  predicate CanWrite(v: ReqView) {
    InFlight(v) && DataField in v.args
  }

  /** `request.write(m)`: appended when the connection is up, dropped when it is gone. */
  function Written(v: ReqView, m: Message): ReqView
  {
    if v.live then v.(body := v.body + [m]) else v
  }

  /** `request.finish()`: None stands for the RuntimeError raised on a lost connection. */
  function Finished(v: ReqView): Option<ReqView>
  {
    if v.live then Some(v.(finished := true)) else None
  }

  /** A request object, shared between the web server and the channel that suspends it. */
  class Request {
    const args: map<string, string>
    var live: bool
    var body: seq<Message>
    var finished: bool

    function View(): ReqView
      reads this
    {
      ReqView(args, live, body, finished)
    }

    /** A request just received: connected, nothing written, not finished. */
    constructor (args: map<string, string>)
      ensures View() == ReqView(args, true, [], false)
    {
      this.args := args;
      live := true;
      body := [];
      finished := false;
    }

    method Write(m: Message)
      requires InFlight(View())
      modifies this
      ensures View() == Written(old(View()), m)
    {
      if live {
        body := body + [m];
      }
    }

    /** Returns false where Twisted raises RuntimeError (the connection is gone). */
    method Finish() returns (ok: bool)
      requires InFlight(View())
      modifies this
      ensures ok == old(live)
      ensures ok ==> Finished(old(View())) == Some(View())
      ensures !ok ==> View() == old(View())
    {
      ok := live;
      if ok {
        finished := true;
      }
    }

    /** The client's connection drops. */
    method LoseConnection()
      modifies this
      ensures View() == old(View()).(live := false)
    {
      live := false;
    }
  }
}
