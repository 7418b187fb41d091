/**
 * The channel registry of v2.py: a dictionary from channel name to channel,
 * shared by the `/new` resource, which creates channels, and the `/channel`
 * resource, which routes each request to one channel.
 *
 * Where v2.py cannot run as written, the model follows its evident intent:
 * - v2.py:41 calls `Channel(name, reactor, _REQUEST_TIMEOUT)` but the
 *   constructor takes the name alone (channel.py:13); the model passes the name.
 * - v2.py:81-82 cancels a `close_call` attribute no channel has and calls
 *   `_close_channel` with its arguments swapped; the model removes the
 *   channel's entry and answers Ok.
 */
module Registry {
  import opened Wrappers
  import opened Responses
  import opened Requests
  import opened Pairing
  import opened Channels

  /** v2.py:11: seconds a lone request may wait for its counterpart. */
  const RequestTimeout: int := 10
  /** v2.py:12: seconds before an unused channel is closed. */
  const ChannelCloseTimeout: int := 1800

  /** v2.py:13: a request times out well before its channel would be closed. */
  lemma TimeoutsOrdered()
    ensures 0 < RequestTimeout < ChannelCloseTimeout
  {
  }

  /**
   * v2.py:32-35: the configured fixed name when there is one, else the
   * generated one. The test is Python truthiness, so an empty fixed name
   * counts as none.
   */
  function ChooseName(fixed: Option<string>, generated: string): string {
    if fixed.Some? && fixed.value != "" then fixed.value else generated
  }

  /** v2.py:54-60: `ChannelsResource.getChild`; a miss is the NoResource page. */
  function Lookup(channels: map<string, Channel>, name: string): Option<Channel> {
    if name in channels then Some(channels[name]) else None
  }

  datatype PostRoute = ToWrite | ToClose | Rejected

  /** v2.py:70, 77, 87: which branch of `render_POST` a request takes. */
  function RoutePost(args: map<string, string>): PostRoute {
    if DataField in args then ToWrite
    else if CloseField in args then ToClose
    else Rejected
  }

  class Registry {
    var channels: map<string, Channel>
    /** The `--fixed` command-line option (v2.py:105-106). */
    const fixed: Option<string>

    /** Every request some registered channel holds. */
    ghost function HeldRequests(): set<Request>
      reads this, channels.Values
    {
      set n, r | n in channels && r in channels[n].Stored() :: r
    }

    /**
     * Every channel is registered under its own name and is valid, and no
     * request is held by two channels.
     */
    ghost predicate Valid()
      reads this, channels.Values, HeldRequests()
    {
      && (forall n :: n in channels ==> channels[n].name == n)
      && (forall n :: n in channels ==> channels[n].Valid())
      && (forall n, m :: n in channels && m in channels && n != m ==> channels[n].Stored() !! channels[m].Stored())
    }

    /** What handling a request for `name` may change: that channel and the request it holds. */
    ghost function Footprint(name: string): set<object>
      reads this, channels.Values
    {
      if name in channels then {channels[name] as object} + channels[name].Stored() else {}
    }

    /** v2.py:109: the server starts with no channels. */
    constructor (fixed: Option<string>)
      ensures channels == map[] && this.fixed == fixed && Valid()
    {
      channels := map[];
      this.fixed := fixed;
    }

    /** v2.py:16-20 `_close_channel`: close the channel, then delete its entry and no other. */
    method CloseChannel(channel: Channel)
      requires Valid() && channel.name in channels
      modifies this`channels
      ensures Valid()
      ensures channels == old(channels) - {channel.name}
    {
      channel.Close();
      channels := channels - {channel.name};
    }

    /**
     * v2.py:30-46 `NewChannelResource.render_GET`: pick the name, close and
     * remove a channel already registered under it, register a new channel in
     * Standby and answer with the name. `generated` stands for the uuid4 hex
     * string of v2.py:35.
     */
    method NewChannel(generated: string) returns (name: string)
      requires Valid()
      modifies this`channels
      ensures Valid()
      ensures fixed.Some? && fixed.value != "" ==> name == fixed.value
      ensures fixed.None? || fixed.value == "" ==> name == generated
      ensures name in channels && fresh(channels[name])
      ensures channels[name].name == name && channels[name].state == Standby && channels[name].timer == Disarmed
      ensures channels == old(channels)[name := channels[name]]
    {
      name := ChooseName(fixed, generated);
      match Lookup(channels, name) {
        case Some(existing) =>
          CloseChannel(existing);
        case None =>
      }
      var channel := new Channel(name);
      Register(channel);
    }

    /** v2.py:44: store a new, empty channel under its name, which is free. */
    method Register(channel: Channel)
      requires Valid() && channel.name !in channels && channel.state == Standby
      modifies this`channels
      ensures Valid()
      ensures channels == old(channels)[channel.name := channel]
    {
      assert channel.Stored() == {} && channel.Valid();
      channels := channels[channel.name := channel];
      assert forall n :: n in channels && n != channel.name ==> channels[n] == old(channels)[n];
    }

    /**
     * v2.py:54-60 and 69-88: route a POST to the named channel. An unknown
     * name is NoResource. With a `data` field, whether or not `close` is also
     * there, it is that channel's write; with `close` alone the channel is
     * removed and the answer is Ok; with neither it is NoResource. Only the
     * write touches the channel.
     */
    method Post(name: string, request: Request) returns (reply: Reply)
      requires Valid() && request !in HeldRequests() && InFlight(request.View())
      modifies this`channels, Footprint(name)
      ensures Valid()
      ensures name !in old(channels) ==> reply == NoResource && channels == old(channels)
      ensures name in old(channels) && DataField in request.args ==>
                && channels == old(channels)
                && reply == OnWrite(old(channels[name].Abs()), old(request.View())).reply
                && channels[name].Abs() == OnWrite(old(channels[name].Abs()), old(request.View())).next
                && (OnWrite(old(channels[name].Abs()), old(request.View())).settled.Some? ==>
                      old(channels[name].state).held.View() == OnWrite(old(channels[name].Abs()), old(request.View())).settled.value)
                && (old(channels[name].state).Standby? ==> channels[name].state == WriteWaiting(request))
                && (!old(channels[name].state).Standby? ==>
                      channels[name].state == Standby || channels[name].state == old(channels[name].state))
      ensures name in old(channels) && DataField !in request.args ==>
                && old(channels[name]).state == old(channels[name].state)
                && old(channels[name]).Abs() == old(channels[name].Abs())
      ensures name in old(channels) && DataField !in request.args && CloseField in request.args ==>
                channels == old(channels) - {name} && reply == Sent(Envelope(OkCode))
      ensures name in old(channels) && DataField !in request.args && CloseField !in request.args ==>
                channels == old(channels) && reply == NoResource
    {
      match Lookup(channels, name)
      case None =>
        reply := NoResource;
      case Some(channel) =>
        match RoutePost(request.args)
        case ToWrite =>
          reply := channel.Write(request);
        case ToClose =>
          CloseChannel(channel);
          reply := Sent(Envelope(OkCode));
        case Rejected =>
          reply := NoResource;
    }

    /**
     * v2.py:54-60 and 91-96: route a GET to the named channel's read and
     * return its answer unchanged; an unknown name is NoResource.
     */
    method Get(name: string, request: Request) returns (reply: Reply)
      requires Valid() && request !in HeldRequests() && InFlight(request.View())
      modifies Footprint(name)
      ensures Valid()
      ensures name !in channels ==> reply == NoResource
      ensures name in channels ==>
                && reply == OnRead(old(channels[name].Abs()), old(request.View())).reply
                && channels[name].Abs() == OnRead(old(channels[name].Abs()), old(request.View())).next
                && (OnRead(old(channels[name].Abs()), old(request.View())).settled.Some? ==>
                      old(channels[name].state).held.View() == OnRead(old(channels[name].Abs()), old(request.View())).settled.value)
                && (old(channels[name].state).Standby? ==> channels[name].state == ReadWaiting(request))
                && (!old(channels[name].state).Standby? ==>
                      channels[name].state == Standby || channels[name].state == old(channels[name].state))
    {
      match Lookup(channels, name)
      case None =>
        reply := NoResource;
      case Some(channel) =>
        reply := channel.Read(request);
    }
  }
}
