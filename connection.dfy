/** One websocket connection of the relay server, as the server sees it:
    identity, transport state, liveness fields and the rate-limit counter. */
module Connection {
  import opened Optional

  /** A connection is addressed by its position in the server's connection table. */
  type ConnId = nat

  /** The transport states of a websocket. */
  datatype ReadyState = Connecting | Open | Closing | Closed

  datatype Conn = Conn(
    playerId: Option<string>,  // None when the path had no second segment
    channel: string,           // already lower-cased
    readyState: ReadyState,
    isAlive: bool,
    pingStart: int,            // time the last probe was sent, in milliseconds
    latency: Option<int>,      // None until the first probe is answered
    counter: nat)              // messages received since the last answered probe

  const Host := "host"

  predicate IsHost(c: Conn) {
    c.playerId == Some(Host)
  }

  /** Open or still connecting: what keeps a channel from being swept. */
  predicate IsLive(c: Conn) {
    c.readyState == Open || c.readyState == Connecting
  }

  /** The state of a connection right after admission. */
  function Fresh(channel: string, playerId: Option<string>, now: int): (c: Conn)
    ensures c.readyState == Open && c.isAlive && c.counter == 0 && c.pingStart == now
    ensures c.channel == channel && c.playerId == playerId && c.latency == None
  {
    Conn(playerId, channel, Open, true, now, None, 0)
  }

  /** `Math.round(d / 2)`: the integer nearest to d/2, ties rounded up. */
  function HalfRound(d: int): (r: int)
    ensures d <= 2 * r <= d + 1
    ensures r == ((d as real) / 2.0 + 0.5).Floor
  {
    (d + 1) / 2
  }

  /** The probe answer (`heartbeat`): half the round trip becomes the latency,
      the rate-limit window restarts and the connection is alive again. */
  function Heartbeat(c: Conn, now: int): (c': Conn)
    ensures c'.isAlive && c'.counter == 0
    ensures c'.latency.Some? && now - c.pingStart <= 2 * c'.latency.value <= now - c.pingStart + 1
    ensures c'.playerId == c.playerId && c'.channel == c.channel
    ensures c'.readyState == c.readyState && c'.pingStart == c.pingStart
  {
    c.(latency := Some(HalfRound(now - c.pingStart)), counter := 0, isAlive := true)
  }

  /** `ws.close(...)`: an open connection starts its closing handshake. */
  function Close(c: Conn): (r: Conn)
    ensures !IsLive(r)
    ensures r.readyState == Closed <==> c.readyState == Closed
    ensures r.(readyState := c.readyState) == c
  {
    if c.readyState == Closed then c else c.(readyState := Closing)
  }

  /** `ws.terminate()`: the socket is destroyed at once. */
  function Terminate(c: Conn): (r: Conn)
    ensures !IsLive(r) && r.readyState == Closed
    ensures r.(readyState := c.readyState) == c
  {
    c.(readyState := Closed)
  }

  /** Whether the liveness pass of a timer tick terminates the connection. */
  predicate TimesOut(c: Conn) {
    c.readyState != Closed && !c.isAlive
  }

  /** One connection's part of the timer tick's liveness pass.  Closed
      connections are no longer among the server's clients. */
  function TickConn(c: Conn, now: int): (c': Conn)
    ensures TimesOut(c) ==> c' == c.(readyState := Closed)
    ensures c.readyState != Closed && c.isAlive ==> c' == c.(isAlive := false, pingStart := now)
    ensures c.readyState == Closed ==> c' == c
  {
    if c.readyState == Closed then c
    else if !c.isAlive then Terminate(c)
    else c.(isAlive := false, pingStart := now)
  }

  /** A connection that answers no probe between two ticks is terminated by the second. */
  lemma SilentForTwoTicks(c: Conn, t1: int, t2: int)
    ensures TickConn(TickConn(c, t1), t2).readyState == Closed
  {
  }

  /** A connection that answers the probe before the next tick survives that tick
      with its state unchanged and its rate-limit window restarted. */
  lemma AnsweredProbeSurvives(c: Conn, t1: int, t: int, t2: int)
    ensures var c' := TickConn(Heartbeat(TickConn(c, t1), t), t2);
      (TickConn(c, t1).readyState != Closed ==> c'.readyState == TickConn(c, t1).readyState) &&
      (c.readyState != Closed ==> c'.counter == 0)
  {
  }
}
