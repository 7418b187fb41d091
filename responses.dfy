/**
 * What a handler hands back to the web server and what is written into a
 * suspended request. The JSON envelopes of response.py and helpers.py are
 * reduced to their integer status code; the key order of the rendered JSON
 * and the HTTP headers are not modelled.
 */
module Responses {

  /** `Ok` in response.py: status "ok", code 0. */
  const OkCode: int := 0
  /** `Closed` in response.py: status "ok", code -1 (no path of the core produces it). */
  const ClosedCode: int := -1
  /** `_PEER_DISCONNECTED` in channel.py. */
  const PeerDisconnected: int := 1
  /** `_TIMEOUT` in channel.py. */
  const TimedOut: int := 2
  /** `_CHANNEL_CLOSED` in channel.py (defined, never produced: closing is a stub). */
  const ChannelClosed: int := 3

  /** One chunk of a response body: raw payload bytes or a status envelope. */
  datatype Message = Payload(data: string) | Envelope(code: int)

  /**
   * The outcome of one event handler:
   * - NotDoneYet: the request is suspended (Twisted's NOT_DONE_YET);
   * - NoResource: the rendered 404 page of `NoResource().render(request)`;
   * - Sent(m): the handler returns `m` as the response body;
   * - Done: a handler with no result (timeout, disconnect) returned normally;
   * - Raised: a RuntimeError escaped the handler.
   */
  datatype Reply = NotDoneYet | NoResource | Sent(message: Message) | Done | Raised
}
