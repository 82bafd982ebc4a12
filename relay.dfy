/** The relay server's state machine: the channel registry, the connection
    table and the metric counters, with one method per event (a new
    connection, a probe answer, an inbound message, a timer tick). */
module Relay {
  import opened Optional
  import opened Connection
  import opened Routing
  import opened Admission

  datatype AdmissionOutcome =
    | Admitted(id: ConnId)
    | DuplicateHost(reason: string)
    | ValidationFailed(reason: string)
    | InheritedChannel  // the handler throws: the channel name is a key of every plain object

  datatype MessageOutcome =
    | Spam(reason: string)
    | ChannelMissing  // the sender's channel has been swept: nothing is sent
    | Routed(kind: Kind)

  function DuplicateHostReason(channel: string): string {
    "The channel \"" + channel + "\" already has a host"
  }

  const ValidationReason := "Player secret failed to validate."
  const SpamReason := "Your app seems to be malfunctioning, please clear your browser cache."

  predicate ListsInTable(conns: seq<Conn>, channels: map<string, seq<ConnId>>) {
    forall ch :: ch in channels ==> InTable(conns, channels[ch])
  }

  predicate IsOpenHost(c: Conn) {
    c.readyState == Open && IsHost(c)
  }

  /** The duplicate-host test: some connection of the list is an open host. */
  predicate HasOpenHost(conns: seq<Conn>, list: seq<ConnId>)
    requires InTable(conns, list)
  {
    exists k :: 0 <= k < |list| && IsOpenHost(conns[list[k]])
  }

  /** Some connection of the list is open or connecting. */
  predicate HasLive(conns: seq<Conn>, list: seq<ConnId>)
    requires InTable(conns, list)
  {
    exists k :: 0 <= k < |list| && IsLive(conns[list[k]])
  }

  /** At most one open host per channel. */
  predicate OneOpenHost(conns: seq<Conn>) {
    forall i, j :: 0 <= i < |conns| && 0 <= j < |conns| && IsOpenHost(conns[i]) && IsOpenHost(conns[j])
      ==> conns[i].channel != conns[j].channel || i == j
  }

  /** Every listed connection belongs to the channel that lists it. */
  predicate ListedInOwnChannel(conns: seq<Conn>, channels: map<string, seq<ConnId>>) {
    forall ch, k :: ch in channels && 0 <= k < |channels[ch]| ==>
      channels[ch][k] < |conns| && conns[channels[ch][k]].channel == ch
  }

  /** Every open or connecting connection is listed by its channel. */
  predicate LiveAreListed(conns: seq<Conn>, channels: map<string, seq<ConnId>>) {
    forall i :: 0 <= i < |conns| && IsLive(conns[i]) ==>
      conns[i].channel in channels && i in channels[conns[i].channel]
  }

  /** No connection is listed twice. */
  predicate Distinct(list: seq<ConnId>) {
    forall i, j :: 0 <= i < j < |list| ==> list[i] != list[j]
  }

  predicate ListsDistinct(channels: map<string, seq<ConnId>>) {
    forall ch :: ch in channels ==> Distinct(channels[ch])
  }

  /** The registry invariant. */
  predicate Registry(conns: seq<Conn>, channels: map<string, seq<ConnId>>) {
    && ListsInTable(conns, channels)
    && ListsDistinct(channels)
    && ListedInOwnChannel(conns, channels)
    && LiveAreListed(conns, channels)
    && OneOpenHost(conns)
  }

  /** The duplicate-host refusal: a host joins a channel that already lists an open host. */
  predicate HostTaken(conns: seq<Conn>, channels: map<string, seq<ConnId>>, channel: string, playerId: Option<string>)
    requires ListsInTable(conns, channels)
  {
    playerId == Some(Host) && channel in channels && HasOpenHost(conns, channels[channel])
  }

  /** The lower-case names under which a plain JavaScript object already holds
      a truthy inherited value (`Object.prototype.constructor` and
      `Object.prototype.__proto__`); the registry object answers them without
      any channel having been created. */
  predicate InheritedName(channel: string) {
    channel == "constructor" || channel == "__proto__"
  }

  /** Changing one connection keeps the invariant when it stays in its channel
      and becomes neither live nor an open host. */
  lemma UpdateKeepsRegistry(conns: seq<Conn>, channels: map<string, seq<ConnId>>, id: ConnId, c: Conn)
    requires Registry(conns, channels) && id < |conns|
    requires c.channel == conns[id].channel
    requires IsLive(c) ==> IsLive(conns[id])
    requires IsOpenHost(c) ==> IsOpenHost(conns[id])
    ensures Registry(conns[id := c], channels)
  {
    var conns' := conns[id := c];
    assert forall i :: 0 <= i < |conns| && i != id ==> conns'[i] == conns[i];
  }

  /** The list of `channel` after appending `id`, creating it if absent. */
  function Appended(channels: map<string, seq<ConnId>>, channel: string, id: ConnId): map<string, seq<ConnId>> {
    channels[channel := (if channel in channels then channels[channel] else []) + [id]]
  }

  /** Admitting a connection keeps the invariant unless it is a second open host. */
  lemma AdmitKeepsRegistry(conns: seq<Conn>, channels: map<string, seq<ConnId>>, c: Conn)
    requires Registry(conns, channels)
    requires IsOpenHost(c) ==> !(c.channel in channels && HasOpenHost(conns, channels[c.channel]))
    ensures Registry(conns + [c], Appended(channels, c.channel, |conns|))
  {
    var id := |conns|;
    var conns' := conns + [c];
    var channels' := Appended(channels, c.channel, id);
    assert forall i :: 0 <= i < id ==> conns'[i] == conns[i];
    assert ListsDistinct(channels') by {
      if c.channel in channels {
        assert forall k :: 0 <= k < |channels[c.channel]| ==> channels[c.channel][k] < id;
      }
    }
    assert ListedInOwnChannel(conns', channels') by {
      forall ch, k | ch in channels' && 0 <= k < |channels'[ch]|
        ensures channels'[ch][k] < |conns'| && conns'[channels'[ch][k]].channel == ch
      {
        if ch == c.channel && k == |channels'[ch]| - 1 {
        } else {
          assert channels'[ch][k] == channels[ch][k];
        }
      }
    }
    assert LiveAreListed(conns', channels') by {
      forall i | 0 <= i < |conns'| && IsLive(conns'[i])
        ensures conns'[i].channel in channels' && i in channels'[conns'[i].channel]
      {
        if i < id {
          var ch := conns[i].channel;
          assert i in channels[ch];
          assert channels[ch] <= channels'[ch];
        } else {
          assert channels'[c.channel][|channels'[c.channel]| - 1] == id;
        }
      }
    }
    forall j | 0 <= j < id && IsOpenHost(conns[j])
      ensures conns[j].channel in channels && HasOpenHost(conns, channels[conns[j].channel])
    {
      var list := channels[conns[j].channel];
      var k :| 0 <= k < |list| && list[k] == j;
    }
  }

  /** The sweep keeps the invariant: it deletes only channels without live connections. */
  lemma SweepKeepsRegistry(conns: seq<Conn>, channels: map<string, seq<ConnId>>)
    requires Registry(conns, channels)
    ensures Registry(conns, Swept(channels, conns))
  {
    var swept := Swept(channels, conns);
    forall i | 0 <= i < |conns| && IsLive(conns[i])
      ensures conns[i].channel in swept
    {
      var list := channels[conns[i].channel];
      var k :| 0 <= k < |list| && list[k] == i;
    }
  }

  /** The channels that survive a sweep: those with an open or connecting
      connection (an empty list has none).  Surviving lists are untouched. */
  function Swept(channels: map<string, seq<ConnId>>, conns: seq<Conn>): (r: map<string, seq<ConnId>>)
    requires ListsInTable(conns, channels)
  {
    map ch | ch in channels && HasLive(conns, channels[ch]) :: channels[ch]
  }

  /** `a` occurs in `list` at an earlier position than `b`. */
  predicate Before(list: seq<ConnId>, a: ConnId, b: ConnId) {
    exists i1, i2 :: 0 <= i1 < i2 < |list| && list[i1] == a && list[i2] == b
  }

  lemma BeforeExtends(init: seq<ConnId>, last: ConnId, a: ConnId, b: ConnId)
    requires Before(init, a, b)
    ensures Before(init + [last], a, b)
  {
    var i1, i2 :| 0 <= i1 < i2 < |init| && init[i1] == a && init[i2] == b;
    assert (init + [last])[i1] == a && (init + [last])[i2] == b;
  }

  lemma BeforeLast(init: seq<ConnId>, last: ConnId, a: ConnId)
    requires a in init
    ensures Before(init + [last], a, last)
  {
    var i1 :| 0 <= i1 < |init| && init[i1] == a;
    assert (init + [last])[i1] == a && (init + [last])[|init|] == last;
  }

  /** The recipients of `ds` appear in `list` in the same order. */
  predicate InOrder(list: seq<ConnId>, ds: seq<Delivery>) {
    forall k1, k2 :: 0 <= k1 < k2 < |ds| ==> Before(list, ds[k1].to, ds[k2].to)
  }

  /** No connection receives two copies. */
  predicate DistinctRecipients(ds: seq<Delivery>) {
    forall k1, k2 :: 0 <= k1 < k2 < |ds| ==> ds[k1].to != ds[k2].to
  }

  /** One step of a fan-out over `init + [last]`: the deliveries so far are
      those over `init`, possibly followed by one to `last`. */
  predicate SnocStep(ds0: seq<Delivery>, ds: seq<Delivery>, last: ConnId) {
    ds == ds0 || (|ds| == |ds0| + 1 && ds[..|ds0|] == ds0 && ds[|ds0|].to == last)
  }

  lemma OrderSnoc(init: seq<ConnId>, last: ConnId, ds0: seq<Delivery>, ds: seq<Delivery>)
    requires forall k :: 0 <= k < |ds0| ==> ds0[k].to in init
    requires InOrder(init, ds0)
    requires SnocStep(ds0, ds, last)
    ensures InOrder(init + [last], ds)
  {
    forall k1, k2 | 0 <= k1 < k2 < |ds|
      ensures Before(init + [last], ds[k1].to, ds[k2].to)
    {
      assert ds[k1] == ds0[k1];
      if k2 < |ds0| {
        assert ds[k2] == ds0[k2];
        BeforeExtends(init, last, ds0[k1].to, ds0[k2].to);
      } else {
        BeforeLast(init, last, ds0[k1].to);
      }
    }
  }

  lemma DistinctSnoc(init: seq<ConnId>, last: ConnId, ds0: seq<Delivery>, ds: seq<Delivery>)
    requires forall k :: 0 <= k < |ds0| ==> ds0[k].to in init
    requires DistinctRecipients(ds0)
    requires last !in init
    requires SnocStep(ds0, ds, last)
    ensures DistinctRecipients(ds)
  {
    forall k1, k2 | 0 <= k1 < k2 < |ds|
      ensures ds[k1].to != ds[k2].to
    {
      assert ds[k1] == ds0[k1];
      if k2 < |ds0| {
        assert ds[k2] == ds0[k2];
      }
    }
  }

  /** A fan-out follows the channel's list: recipients come in list order, and
      over a list without repeats each recipient gets exactly one copy. */
  lemma {:induction false} DeliveriesInListOrder(conns: seq<Conn>, sender: ConnId, route: Route, list: seq<ConnId>)
    requires sender < |conns| && InTable(conns, list)
    ensures InOrder(list, Deliveries(conns, sender, route, list))
    ensures Distinct(list) ==> DistinctRecipients(Deliveries(conns, sender, route, list))
    decreases |list|
  {
    if list != [] {
      var init := list[..|list| - 1];
      var last := list[|list| - 1];
      assert list == init + [last];
      DeliveriesInListOrder(conns, sender, route, init);
      var ds0 := Deliveries(conns, sender, route, init);
      var ds := Deliveries(conns, sender, route, list);
      assert SnocStep(ds0, ds, last);
      OrderSnoc(init, last, ds0, ds);
      if Distinct(list) {
        assert Distinct(init) && last !in init;
        DistinctSnoc(init, last, ds0, ds);
      }
    }
  }

  /** How many connections the liveness pass of a tick terminates. */
  function TimedOutCount(conns: seq<Conn>): (n: nat)
    ensures n <= |conns|
    ensures n == 0 <==> forall i :: 0 <= i < |conns| ==> !TimesOut(conns[i])
  {
    if conns == [] then 0
    else
      var init := conns[..|conns| - 1];
      assert forall i :: 0 <= i < |init| ==> init[i] == conns[i];
      TimedOutCount(init) + (if TimesOut(conns[|conns| - 1]) then 1 else 0)
  }

  class Server {
    /** base64url(SHA-256(bytes)), supplied by the host platform. */
    const digest: seq<bv8> -> string
    /** The lenient base64url decoder, supplied by the host platform. */
    const decodeSecret: string -> seq<bv8>

    /** Every admitted connection, addressed by position; never shrinks. */
    var conns: seq<Conn>
    /** Lower-cased channel name to the connections admitted to it, in order. */
    var channels: map<string, seq<ConnId>>

    var incoming: nat
    var outgoing: nat
    var terminatedHost: nat
    var terminatedSpam: nat
    var terminatedTimeout: nat
    var terminatedValidate: nat

    ghost predicate Valid()
      reads this
    {
      && Registry(conns, channels)
      && forall ch :: ch in channels ==> !InheritedName(ch)
    }

    constructor (digest: seq<bv8> -> string, decodeSecret: string -> seq<bv8>)
      ensures Valid()
      ensures this.digest == digest && this.decodeSecret == decodeSecret
      ensures conns == [] && channels == map[]
      ensures incoming == outgoing == 0
      ensures terminatedHost == terminatedSpam == terminatedTimeout == terminatedValidate == 0
    {
      this.digest := digest;
      this.decodeSecret := decodeSecret;
      conns := [];
      channels := map[];
      incoming, outgoing := 0, 0;
      terminatedHost, terminatedSpam, terminatedTimeout, terminatedValidate := 0, 0, 0, 0;
    }

    /** A new connection: refuse a second open host, refuse a secret-marked id
        that the secret does not produce, otherwise register the connection at
        the end of its channel's list.  On an inherited channel name the
        handler throws before registering: for a host at the duplicate-host
        test, for anyone else at the append. */
    method Connect(pathname: string, secret: Option<string>, now: int) returns (outcome: AdmissionOutcome)
      requires Valid()
      modifies this`conns, this`channels, this`terminatedHost, this`terminatedValidate
      ensures Valid()
      ensures outcome.DuplicateHost? <==>
                HostTaken(old(conns), old(channels), ParsePath(pathname).0, ParsePath(pathname).1)
      ensures outcome.DuplicateHost? ==> outcome.reason == DuplicateHostReason(ParsePath(pathname).0)
      ensures outcome.ValidationFailed? <==>
                !HostTaken(old(conns), old(channels), ParsePath(pathname).0, ParsePath(pathname).1) &&
                !Validates(ParsePath(pathname).1, secret, digest, decodeSecret)
      ensures outcome.ValidationFailed? ==> outcome.reason == ValidationReason
      ensures outcome.InheritedChannel? <==>
                InheritedName(ParsePath(pathname).0) && Validates(ParsePath(pathname).1, secret, digest, decodeSecret)
      ensures outcome.Admitted? ==> outcome.id == |old(conns)|
      ensures outcome.Admitted? ==> conns == old(conns) + [Fresh(ParsePath(pathname).0, ParsePath(pathname).1, now)]
      ensures outcome.Admitted? ==> channels == Appended(old(channels), ParsePath(pathname).0, outcome.id)
      ensures !outcome.Admitted? ==> conns == old(conns) && channels == old(channels)
      ensures terminatedHost == old(terminatedHost) + (if outcome.DuplicateHost? then 1 else 0)
      ensures terminatedValidate == old(terminatedValidate) + (if outcome.ValidationFailed? then 1 else 0)
    {
      var (channel, playerId) := ParsePath(pathname);
      if playerId == Some(Host) && InheritedName(channel) {
        return InheritedChannel;
      }
      if HostTaken(conns, channels, channel, playerId) {
        terminatedHost := terminatedHost + 1;
        return DuplicateHost(DuplicateHostReason(channel));
      }
      if !Validates(playerId, secret, digest, decodeSecret) {
        terminatedValidate := terminatedValidate + 1;
        return ValidationFailed(ValidationReason);
      }
      if InheritedName(channel) {
        return InheritedChannel;
      }
      var id := |conns|;
      var admitted := Fresh(channel, playerId, now);
      AdmitKeepsRegistry(conns, channels, admitted);
      conns := conns + [admitted];
      channels := Appended(channels, channel, id);
      outcome := Admitted(id);
    }

    /** The probe answer of connection `id` (`heartbeat`). */
    method Pong(id: ConnId, now: int)
      requires Valid() && id < |conns| && conns[id].readyState != Closed
      modifies this`conns
      ensures Valid()
      ensures conns == old(conns)[id := Heartbeat(old(conns[id]), now)]
    {
      UpdateKeepsRegistry(conns, channels, id, Heartbeat(conns[id], now));
      conns := conns[id := Heartbeat(conns[id], now)];
    }

    /** An inbound message on connection `id`: count it, close the connection
        past the rate limit, otherwise fan it out over the sender's channel.
        `body` stands for element 1 of the message parsed as JSON. */
    method Receive(id: ConnId, data: string, body: DirectBody) returns (outcome: MessageOutcome, ds: seq<Delivery>)
      requires Valid() && id < |conns| && conns[id].readyState != Closed
      modifies this`conns, this`incoming, this`outgoing, this`terminatedSpam
      ensures Valid()
      ensures incoming == old(incoming) + 1
      ensures var counted := old(conns[id]).(counter := old(conns[id].counter) + 1);
        && (outcome.Spam? <==> OverLimit(counted.counter))
        && (outcome.Spam? ==> conns == old(conns)[id := Close(counted)] && outcome.reason == SpamReason)
        && (!outcome.Spam? ==> conns == old(conns)[id := counted])
      ensures terminatedSpam == old(terminatedSpam) + (if outcome.Spam? then 1 else 0)
      ensures outcome.ChannelMissing? <==> !outcome.Spam? && conns[id].channel !in channels
      ensures outcome.ChannelMissing? ==> !IsLive(conns[id])
      ensures outcome.Routed? ==>
                && outcome.kind == Classify(data)
                && conns[id].channel in channels
                && ds == Deliveries(conns, id, RouteOf(outcome.kind, data, body), channels[conns[id].channel])
      ensures DistinctRecipients(ds)
      ensures !outcome.Routed? ==> ds == []
      ensures outgoing == old(outgoing) + |ds|
    {
      incoming := incoming + 1;
      var counted := conns[id].(counter := conns[id].counter + 1);
      ds := [];
      if OverLimit(counted.counter) {
        UpdateKeepsRegistry(conns, channels, id, Close(counted));
        conns := conns[id := Close(counted)];
        terminatedSpam := terminatedSpam + 1;
        return Spam(SpamReason), ds;
      }
      UpdateKeepsRegistry(conns, channels, id, counted);
      conns := conns[id := counted];
      var channel := counted.channel;
      if channel !in channels {
        return ChannelMissing, ds;
      }
      var kind := Classify(data);
      ds := FanOut(conns, id, RouteOf(kind, data, body), channels[channel]);
      DeliveriesInListOrder(conns, id, RouteOf(kind, data, body), channels[channel]);
      outgoing := outgoing + |ds|;
      outcome := Routed(kind);
    }

    /** The timer tick: the liveness pass over every client, then the sweep of
        channels that no longer hold an open or connecting connection. */
    method Tick(now: int)
      requires Valid()
      modifies this`conns, this`channels, this`terminatedTimeout
      ensures Valid()
      ensures |conns| == |old(conns)|
      ensures forall i :: 0 <= i < |conns| ==> conns[i] == TickConn(old(conns[i]), now)
      ensures terminatedTimeout == old(terminatedTimeout) + TimedOutCount(old(conns))
      ensures channels == Swept(old(channels), conns)
    {
      CheckLiveness(now);
      SweepChannels();
    }

    /** Terminate every client that has not answered the last probe; mark the
        others as awaiting an answer to a probe sent now. */
    method CheckLiveness(now: int)
      requires Valid()
      modifies this`conns, this`terminatedTimeout
      ensures Valid()
      ensures |conns| == |old(conns)|
      ensures forall i :: 0 <= i < |conns| ==> conns[i] == TickConn(old(conns[i]), now)
      ensures terminatedTimeout == old(terminatedTimeout) + TimedOutCount(old(conns))
    {
      for i := 0 to |conns|
        invariant Registry(conns, channels)
        invariant |conns| == |old(conns)|
        invariant forall j :: 0 <= j < i ==> conns[j] == TickConn(old(conns[j]), now)
        invariant forall j :: i <= j < |conns| ==> conns[j] == old(conns[j])
        invariant terminatedTimeout == old(terminatedTimeout) + TimedOutCount(old(conns)[..i])
      {
        assert old(conns)[..i + 1][..i] == old(conns)[..i];
        var c := conns[i];
        if c.readyState != Closed {
          if !c.isAlive {
            terminatedTimeout := terminatedTimeout + 1;
            UpdateKeepsRegistry(conns, channels, i, Terminate(c));
            conns := conns[i := Terminate(c)];
          } else {
            UpdateKeepsRegistry(conns, channels, i, c.(isAlive := false, pingStart := now));
            conns := conns[i := c.(isAlive := false, pingStart := now)];
          }
        }
      }
      assert old(conns)[..|conns|] == old(conns);
    }

    /** Delete every channel whose list holds no open or connecting connection. */
    method SweepChannels()
      requires Valid()
      modifies this`channels
      ensures Valid()
      ensures channels == Swept(old(channels), conns)
    {
      var pending := channels.Keys;
      while pending != {}
        invariant pending <= old(channels).Keys
        invariant channels == map ch | ch in old(channels) && (ch in pending || HasLive(conns, old(channels)[ch]))
                                 :: old(channels)[ch]
        decreases pending
      {
        var ch :| ch in pending;
        if |channels[ch]| == 0 || !HasLive(conns, channels[ch]) {
          channels := channels - {ch};
        }
        pending := pending - {ch};
      }
      SweepKeepsRegistry(conns, old(channels));
    }
  }
}
