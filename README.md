# Rendezvous channels, modelled in Dafny

This project models the core of a small rendezvous relay: two peers that do not
know each other's address exchange one payload through a named channel. A
writer POSTs the payload, a reader GETs it, and whichever arrives first is
suspended until its counterpart arrives, a timeout fires, or its connection
drops. After each handoff the channel is back in Standby, ready for the next.

Two pieces are modelled:

- the per-channel pairing state machine of `channel.py` (states `Standby`,
  `WriteWaiting`, `ReadWaiting`; events write, read, timeout and disconnect of
  the suspended request; the channel's single timeout call);
- the name-to-channel registry of `v2.py` (create or replace by name, lookup,
  close and remove, and the per-channel POST/GET dispatch).

Files:

- `wrappers.dfy`: the `Option` type.
- `responses.dfy` (module `Responses`): the outcomes of handlers, with the
  status codes 0 (ok), -1 (closed), 1 (peer disconnected), 2 (timed out) and
  3 (channel closed unexpectedly).
- `requests.dfy` (module `Requests`): a request as the channel sees it (form
  fields, connection up or lost, body written so far, finished or not), as a
  value `ReqView` and as the object `Request`.
- `pairing.dfy` (module `Pairing`): the state machine on values, one step
  function per event, each stating what the handler of every state does; the
  timer value.
- `channel.dfy` (module `Channels`): the class `Channel`, whose methods
  reassign its `state` and `timer` fields in place and are each proved to
  perform the step of module `Pairing`.
- `traces.dfy` (module `Traces`): runs over event sequences and the
  properties that involve several events.
- `registry.dfy` (module `Registry`): the class `Registry` holding the
  `map<string, Channel>`, and the pure lookup and routing decisions.

Requests follow Twisted's behaviour as `channel.py` relies on it: writing to a
request whose connection is gone is silently dropped, and finishing it raises
`RuntimeError`. A reply `Raised` stands for that exception escaping a timeout
handler. Every event is one atomic call, as under Twisted's single-threaded
reactor. The clock is a parameter `now`; a firing of the timeout call is a call
of `Channel.Timeout`.

Where the source cannot run as written, the model follows what its comments and
callers evidently mean; each case is also recorded in a comment at the top of
`channel.dfy` or `registry.dfy`:

- `channel.py:32` calls `self._state.timeout()`; the field is `state`.
- `except TypeError, AlreadyCancelled, AlreadyCalled:` at `channel.py:28` and
  `:38` is a SyntaxError (only one name may follow the comma), so the file does
  not compile; the comments at `:29-30` and `:39` say that no call, or one
  already fired or cancelled, is fine, and the model treats it so.
- `reactor` is never imported in `channel.py` (used at `:40`).
- `v2.py:41` passes three arguments to a constructor that takes only the name.
- `v2.py:81-82` cancels a `close_call` that does not exist and swaps the
  arguments of `_close_channel`; the model removes the entry and answers Ok.

Four behaviours of the code are worth stating plainly, since a reader might
expect otherwise:

- Pairing, timeout handling and disconnect do not cancel the channel's timeout
  call; only `Channel.timeout` itself disarms it.
- `Channel.close` and `close_in` are empty, so closing or replacing a channel
  does not resolve its suspended request; no path produces the codes -1 or 3.
- When a reader takes a waiting writer's payload, the writer is finished with
  nothing written (an empty 200 response), not with an Ok envelope; when a
  writer completes a waiting reader, the writer's own answer is an empty body.
- When the waiting request's connection is gone, the pairing attempt answers
  code 1 and the channel keeps the dead request.

The functions `Requests.Written` and `Requests.Finished` define the assumed
behaviour of Twisted's `Request` (a write on a lost connection is dropped, a
finish on a lost connection raises `RuntimeError`); `Registry.ChooseName`,
`Registry.Lookup` and `Registry.RoutePost` are the branch decisions of
`v2.py`, whose effect is stated by `NewChannel`, `Post` and `Get`.

The registry's invariant `Registry.Registry.Valid` says that every channel is
registered under its own name and is valid, and that no request is held by two
channels; `Post` and `Get` take a request no channel holds and keep the
invariant.

## Model

| member | source | states |
|---|---|---|
| `Pairing.OnWrite` | channel.py:63-131 | keeps the invariant; from Standby stores this writer and suspends; in WriteWaiting refuses with NoResource and changes nothing; in ReadWaiting, pairs exactly when the reader is connected, writing exactly the new payload into it, finishing it and answering an empty body, else answers code 1 with the state unchanged; a request leaves the waiting state exactly when it is resolved |
| `Pairing.OnRead` | channel.py:68-135 | keeps the invariant; from Standby stores this reader and suspends; in ReadWaiting refuses with NoResource and changes nothing; in WriteWaiting, pairs exactly when the writer is connected, answering exactly the writer's payload and finishing the writer with nothing written, else answers code 1 with the state unchanged |
| `Pairing.OnTimeout` | channel.py:72-141 | no-op in Standby; in a waiting state writes the code-2 message into the connected waiting request, finishes it and returns to Standby; on a lost connection the RuntimeError escapes and the state is unchanged |
| `Pairing.OnWaitingClosed` | channel.py:106-145 | the channel returns to Standby and the released request is the suspended one with its connection lost and nothing written |
| `Pairing.Rearm` | channel.py:34-40 | with a positive delay, whether a call was armed or not, exactly one call is armed, due at now + delay |
| `Traces.Apply` | channel.py:19-23 | every event keeps the invariant, and releases a request exactly when it leaves a waiting state, resolved |
| `Traces.Run` | channel.py:58-145 | over any sequence of events, every released request was finished with at most one message or lost its connection with nothing written; the requests held at the start followed by those suspended are, in order, the requests released followed by the one still held, so each suspended request is released once or still held |
| `Traces.ReleasedInOrder` | channel.py:58-145 | from Standby, the k-th released request is the k-th suspended one, and a request still held at the end is the last one suspended |
| `Traces.OrderIndependent` | channel.py:63-131 | from Standby, write-then-read and read-then-write both end in Standby and the reader receives exactly the writer's payload |
| `Traces.TimeoutDisconnectRace` | channel.py:100-145 | a timeout and a disconnect of the same waiting request resolve it once in either order; the second event finds Standby and changes nothing |
| `Channels.Channel.constructor` | channel.py:13-17 | a new channel is in Standby with no timeout call |
| `Channels.Channel.Write` | channel.py:19-20 | performs `OnWrite` on the channel's state in place: the reply, the new state and the final value of the released reader |
| `Channels.Channel.Read` | channel.py:22-23 | performs `OnRead` on the channel's state in place: the reply, the new state and the final value of the released writer |
| `Channels.Channel.Timeout` | channel.py:25-32 | disarms the timer, whatever it was, then performs `OnTimeout` |
| `Channels.Channel.TimeoutIn` | channel.py:34-43 | with a positive delay, one call armed at now + delay and the state untouched; otherwise the timer is disarmed and `OnTimeout` is performed, including the final value of the released request |
| `Channels.Channel.Disconnect` | channel.py:106-145 | the request's connection is lost and nothing is written to it; if the channel held it, Standby with that request released; otherwise nothing changes on the channel |
| `Channels.Channel.Close` | channel.py:45-46 | closing changes neither state nor timer |
| `Channels.Channel.CloseIn` | channel.py:48-52 | changes neither state nor timer |
| `Registry.TimeoutsOrdered` | v2.py:11-13 | the request timeout is positive and strictly less than the channel-close timeout |
| `Registry.Registry.constructor` | v2.py:109 | the registry starts empty |
| `Registry.Registry.CloseChannel` | v2.py:16-20 | removes only that channel's name; every other entry is unchanged |
| `Registry.Registry.NewChannel` | v2.py:30-46 | returns the non-empty fixed name when one is configured, else the generated one; that name now maps to a fresh channel in Standby with no timer, replacing any earlier one, and all other entries are unchanged; the registry stays valid |
| `Registry.Registry.Register` | v2.py:44 | a new Standby channel is stored under its free name, nothing else in the map changes, and the registry stays valid |
| `Registry.Registry.Post` | v2.py:54-88 | unknown name: NoResource, map unchanged; with `data` (even if `close` is present), performs the channel's `OnWrite`, including which request object the channel then holds (this one when it was in Standby) and the released reader's final value; with `close` alone, only that entry is removed and the answer is Ok; with neither, NoResource; without `data` the channel and its held request are untouched; the registry stays valid |
| `Registry.Registry.Get` | v2.py:54-96 | unknown name: NoResource; otherwise performs the channel's `OnRead` and returns its reply unchanged, including which request object the channel then holds (this one when it was in Standby) and the released writer's final value; the registry stays valid |

## Left out

- Channels.Channel.TimeoutIn: a reset of the armed call and a fresh `callLater` leave the same value (one call, due at now + delay); which of the two happened is not observable in the model.
- Inactivity eviction of channels: commented out in `v2.py:18, 42-43, 59`, so not modelled.
- JSON rendering, HTTP headers and the 404 page: outcomes carry only their status code or payload.
- Channel-name generation with uuid4: the generated name is a parameter.
- The Twisted reactor, `callLater` and real time: the timer is a value and the clock a parameter; nothing arms a timer in `v2.py`.
- Server bootstrap and argument parsing (`v2.py:99-119`), logging and `__str__`.
- `simple.py` and `rvp.py`: superseded broadcast revisions.
- `response.py`, `helpers.py` and `errors.py` beyond their status codes.
- Concurrency: each event is one atomic call, as under the single-threaded reactor.
- Request identity: a request handed to a channel is assumed to be one no channel already holds (the registry's invariant and the preconditions of `Post` and `Get` enforce this), and a request's form field `args[f]` stands for its first value `args[f][0]`.
- The `_close_call` field of `Channel` (`channel.py:17`) is never used and is not modelled.
