/** The relay hub's HTTP command route and its local-address lookup
    (`server/index.ts`). The game registry behind `sendCommand` lies outside
    this model: a send is an opaque step whose success the caller supplies as
    `delivers` (true when some connected game accepted the command), and every
    send is appended to the route's log. */
module Server {
  import opened JsValues

  /** One call of `sendCommand(io, gameId, action, payload)`. */
  datatype Command = Command(gameId: string, action: string, payload: Option<Payload>)

  datatype ResponseBody = ErrorBody(error: string) | OkBody(ok: bool)

  datatype Response = Response(status: nat, body: ResponseBody)

  const NotFoundResponse := Response(404, ErrorBody("Game not found"))
  const OkResponse := Response(200, OkBody(true))

  const Empty: Option<Payload> := Some(map[])

  /** The commands the route adds after a successful primary send: the `aria`
      dilemma switches pause or resume both labyrinth roles. */
  function FollowUps(gameId: string, action: string): (r: seq<Command>)
    ensures |r| <= 2
    ensures r != [] <==> gameId == "aria" && (action == "enable_dilemma" || action == "disable_dilemma")
    ensures forall i :: 0 <= i < |r| ==> r[i].payload == Empty
  {
    (if gameId == "aria" && action == "enable_dilemma" then
       [Command("labyrinthe:explorer", "dilemma_start", Empty),
        Command("labyrinthe:protector", "dilemma_start", Empty)]
     else [])
    +
    (if gameId == "aria" && action == "disable_dilemma" then
       [Command("labyrinthe:explorer", "dilemma_end", Empty),
        Command("labyrinthe:protector", "dilemma_end", Empty)]
     else [])
  }

  /** Enabling the dilemma starts it on the explorer, then on the protector. */
  lemma EnableDilemmaFollowUps()
    ensures FollowUps("aria", "enable_dilemma") ==
      [Command("labyrinthe:explorer", "dilemma_start", Empty),
       Command("labyrinthe:protector", "dilemma_start", Empty)]
  {
  }

  /** Disabling the dilemma is the mirror image, with `dilemma_end`. */
  lemma DisableDilemmaFollowUps()
    ensures FollowUps("aria", "disable_dilemma") ==
      [Command("labyrinthe:explorer", "dilemma_end", Empty),
       Command("labyrinthe:protector", "dilemma_end", Empty)]
  {
  }

  /** The interception rules cannot feed themselves: no follow-up command would
      trigger further follow-ups if it were routed the same way. */
  lemma FollowUpsAcyclic(gameId: string, action: string)
    ensures forall c :: c in FollowUps(gameId, action) ==> FollowUps(c.gameId, c.action) == []
  {
  }

  /** Everything one request sends, in order: the primary command, then the
      follow-ups when (and only when) the primary send was delivered. */
  function RequestSends(gameId: string, action: string, payload: Option<Payload>, delivered: bool): (r: seq<Command>)
    ensures 1 <= |r| <= 3
    ensures r[0] == Command(gameId, action, payload)
    ensures !delivered ==> r == [r[0]]
    ensures delivered ==> r[1..] == FollowUps(gameId, action)
  {
    [Command(gameId, action, payload)] + (if delivered then FollowUps(gameId, action) else [])
  }

  /** No follow-up repeats the request's own (game, action) pair, so the
      primary command is sent exactly once per request. */
  lemma PrimarySentOnce(gameId: string, action: string, payload: Option<Payload>, delivered: bool)
    ensures forall i :: 1 <= i < |RequestSends(gameId, action, payload, delivered)| ==>
      (RequestSends(gameId, action, payload, delivered)[i].gameId, RequestSends(gameId, action, payload, delivered)[i].action)
        != (gameId, action)
  {
  }

  /** The route's view of the hub: the log of every `sendCommand` it made. */
  class CommandRoute {
    var sent: seq<Command>

    constructor ()
      ensures sent == []
    {
      sent := [];
    }

    /** `sendCommand`: logs the command and reports whether it was delivered. */
    method SendCommand(c: Command, delivers: Command -> bool) returns (ok: bool)
      modifies this
      ensures sent == old(sent) + [c]
      ensures ok == delivers(c)
    {
      sent := sent + [c];
      ok := delivers(c);
    }

    /** `POST /api/games/:gameId/command` with body `{ action, payload? }`.
        The body keeps the handler's two interception checks as separate
        statements, one send per line as the handler has them; `FollowUps`
        is the table of what they add, and the ensures ties the two. */
    method HandleCommand(gameId: string, action: string, payload: Option<Payload>, delivers: Command -> bool)
      returns (response: Response)
      modifies this
      ensures var delivered := delivers(Command(gameId, action, payload));
        && sent == old(sent) + RequestSends(gameId, action, payload, delivered)
        && response == (if delivered then OkResponse else NotFoundResponse)
    {
      var ok := SendCommand(Command(gameId, action, payload), delivers);
      if !ok {
        response := NotFoundResponse;
        return;
      }
      if gameId == "aria" && action == "enable_dilemma" {
        var _ := SendCommand(Command("labyrinthe:explorer", "dilemma_start", Empty), delivers);
        var _ := SendCommand(Command("labyrinthe:protector", "dilemma_start", Empty), delivers);
      }
      if gameId == "aria" && action == "disable_dilemma" {
        var _ := SendCommand(Command("labyrinthe:explorer", "dilemma_end", Empty), delivers);
        var _ := SendCommand(Command("labyrinthe:protector", "dilemma_end", Empty), delivers);
      }
      response := OkResponse;
    }
  }

  /** One entry of `os.networkInterfaces()`. */
  datatype NetAddress = NetAddress(address: string, family: string, internal: bool)

  /** The address the server announces: an external IPv4 one. Loopback
      (internal) and IPv6 addresses never qualify. */
  function Qualifies(a: NetAddress): (r: bool)
    ensures a.internal ==> !r
    ensures a.family != "IPv4" ==> !r
    ensures a.family == "IPv4" && !a.internal ==> r
  {
    a.family == "IPv4" && !a.internal
  }

  predicate NoneQualify(addrs: seq<NetAddress>)
  {
    forall k :: 0 <= k < |addrs| ==> !Qualifies(addrs[k])
  }

  /** No interface list before position `i` holds a qualifying address. */
  predicate NoneQualifyBefore(nets: seq<Option<seq<NetAddress>>>, i: nat)
    requires i <= |nets|
  {
    forall m :: 0 <= m < i && nets[m].Some? ==> NoneQualify(nets[m].value)
  }

  /** Address `j` of list `i` qualifies and nothing before it, in iteration order, does. */
  predicate IsFirstQualifying(nets: seq<Option<seq<NetAddress>>>, i: nat, j: nat)
  {
    && i < |nets| && nets[i].Some? && j < |nets[i].value|
    && Qualifies(nets[i].value[j])
    && NoneQualifyBefore(nets, i)
    && NoneQualify(nets[i].value[..j])
  }

  /** `getLocalIP`: the first non-internal IPv4 address, skipping interfaces
      whose address list is missing; `None` (JavaScript's `null`) when there is none. */
  method GetLocalIP(nets: seq<Option<seq<NetAddress>>>) returns (ip: Option<string>)
    ensures ip.None? <==> NoneQualifyBefore(nets, |nets|)
    ensures ip.Some? ==> exists i: nat, j: nat :: IsFirstQualifying(nets, i, j) && ip.value == nets[i].value[j].address
  {
    var i := 0;
    while i < |nets|
      invariant 0 <= i <= |nets|
      invariant NoneQualifyBefore(nets, i)
    {
      if nets[i].None? {
        i := i + 1;
        continue;
      }
      var addrs := nets[i].value;
      var j := 0;
      while j < |addrs|
        invariant 0 <= j <= |addrs|
        invariant NoneQualify(addrs[..j])
      {
        if addrs[j].family == "IPv4" && !addrs[j].internal {
          assert IsFirstQualifying(nets, i, j);
          return Some(addrs[j].address);
        }
        assert addrs[..j + 1] == addrs[..j] + [addrs[j]];
        j := j + 1;
      }
      assert addrs[..j] == addrs;
      i := i + 1;
    }
    return None;
  }

  /** At most one address is the first qualifying one. */
  lemma FirstQualifyingUnique(nets: seq<Option<seq<NetAddress>>>, i: nat, j: nat, i': nat, j': nat)
    requires IsFirstQualifying(nets, i, j) && IsFirstQualifying(nets, i', j')
    ensures i == i' && j == j'
  {
  }
}
