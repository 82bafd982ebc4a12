/** The message router of the relay server: the rate limit, the textual
    classification of a message, and the three fan-out rules (ping, direct,
    default) over a snapshot of the connection table. */
module Routing {
  import opened Optional
  import opened Text
  import opened Connection

  /** The heartbeat interval, in milliseconds. */
  const PingIntervalMs: nat := 30000

  /** Messages allowed per connection between two answered probes:
      five per second over one heartbeat interval. */
  const RateLimit: nat := 5 * PingIntervalMs / 1000

  /** The message a connection has just received is rejected as spam: its
      counter, already incremented for this message, is above the limit. */
  predicate OverLimit(counter: nat) {
    counter > RateLimit
  }

  /** The 150th message of a window still passes; the 151st is spam. */
  lemma RateLimitBoundary()
    ensures RateLimit == 150
    ensures !OverLimit(150) && OverLimit(151)
  {
  }

  datatype Kind = Ping | Direct | Default

  /** A character that is a single UTF-16 code unit (in the Basic Multilingual Plane). */
  predicate InBmp(c: char) {
    c as int < 0x1_0000
  }

  /** `data.toLocaleLowerCase().substr(1).split(",", 1).pop()`.  JavaScript
      strings are sequences of UTF-16 code units: when the first character lies
      outside the Basic Multilingual Plane, `substr(1)` keeps its second
      surrogate, and the tag begins with that unpaired surrogate, which no
      `case` label equals.  `None` stands for such a tag. */
  function TypeTag(data: string): (r: Option<string>)
    ensures r.None? <==> |data| > 0 && !InBmp(data[0])
    ensures data == [] ==> r == Some([])
    ensures r.Some? && data != [] ==> ',' !in r.value && r.value <= Lower(data)[1..]
  {
    if data == [] then Some([])
    else if !InBmp(data[0]) then None
    else Some(Split(Lower(data)[1..], ',')[0])
  }

  /** The message text, after a first character of one code unit and
      lower-cased, begins with `tag` followed by the end of the text or by a
      comma. */
  predicate StartsWithTag(data: string, tag: string) {
    |data| >= |tag| + 1 && InBmp(data[0]) && Lower(data)[1..|tag| + 1] == tag &&
    (|data| == |tag| + 1 || data[|tag| + 1] == ',')
  }

  const PingTag := "\"ping\""
  const DirectTag := "\"direct\""

  lemma TypeTagIs(data: string, tag: string)
    requires ',' !in tag && tag != []
    ensures TypeTag(data) == Some(tag) <==> StartsWithTag(data, tag)
  {
    if data != [] && InBmp(data[0]) {
      var t := Lower(data)[1..];
      TakeUntilIs(t, ',', tag);
      if |data| >= |tag| + 1 {
        assert Lower(data)[1..|tag| + 1] == t[..|tag|];
        assert |data| > |tag| + 1 ==> (t[|tag|] == ',' <==> data[|tag| + 1] == ',');
      }
    }
  }

  /** The message type: decided by the text alone, never by parsing it. */
  function Classify(data: string): (k: Kind)
    ensures k == Ping <==> StartsWithTag(data, PingTag)
    ensures k == Direct <==> StartsWithTag(data, DirectTag)
    ensures k == Default <==> !StartsWithTag(data, PingTag) && !StartsWithTag(data, DirectTag)
  {
    TypeTagIs(data, PingTag);
    TypeTagIs(data, DirectTag);
    var tag := TypeTag(data);
    if tag == Some(PingTag) then Ping else if tag == Some(DirectTag) then Direct else Default
  }

  /** A message whose first character takes two UTF-16 code units is never a
      ping or a direct message, whatever follows it. */
  lemma AstralFirstCharIsDefault(c: char, rest: string)
    requires !InBmp(c)
    ensures Classify([c] + rest) == Default
  {
  }

  /** The tag may end the text: `["ping"` is a ping. */
  lemma TagAtEndIsPing(c: char)
    requires InBmp(c)
    ensures Classify([c] + PingTag) == Ping
  {
    assert Lower([c] + PingTag)[1..|PingTag| + 1] == PingTag;
  }

  /** `latency || 0`: a connection that has not answered a probe counts as 0. */
  function LatencyOrZero(l: Option<int>): int {
    l.GetOr(0)
  }

  /** The copy of a ping sent to one recipient: the first `latency` in the text
      is replaced by the sum of the two connections' latencies. */
  function PingText(data: string, recipient: Option<int>, sender: Option<int>): (r: string)
    ensures var sum := IntToDecimal(LatencyOrZero(recipient) + LatencyOrZero(sender));
      match IndexOf(data, "latency")
      case None => r == data
      case Some(k) => r == data[..k] + sum + data[k + |"latency"|..]
  {
    ReplaceFirst(data, "latency", IntToDecimal(LatencyOrZero(recipient) + LatencyOrZero(sender)))
  }

  /** A JSON value of the direct table, abstracted to its serialisation and its
      truthiness. */
  datatype Payload = Payload(json: string, truthy: bool)

  /** Element 1 of the parsed direct message: either the parse failed (or
      element 1 is undefined or null, so that looking a key up throws), or a
      lookup table from property name to value. */
  datatype DirectBody = Unparsable | Table(lookup: map<string, Payload>)

  /** The property name under which a player is looked up: an absent player id
      is the JavaScript value `undefined`, which becomes the key "undefined". */
  function KeyOf(playerId: Option<string>): string {
    match playerId
    case Some(p) => p
    case None => "undefined"
  }

  /** What one message asks the router to send. */
  datatype Route = PingRoute(data: string) | DirectRoute(body: DirectBody) | DefaultRoute(data: string)

  function RouteOf(kind: Kind, data: string, body: DirectBody): Route {
    match kind
    case Ping => PingRoute(data)
    case Direct => DirectRoute(body)
    case Default => DefaultRoute(data)
  }

  /** The text `route` makes the server send from `sender` to `c`, if any. */
  function CopyFor(conns: seq<Conn>, sender: ConnId, route: Route, c: ConnId): (r: Option<string>)
    requires sender < |conns| && c < |conns|
    ensures r.Some? ==> c != sender && conns[c].readyState == Open
    ensures c != sender && conns[c].readyState == Open && route.DefaultRoute? ==> r == Some(route.data)
  {
    if c == sender || conns[c].readyState != Open then None
    else match route
      case PingRoute(data) =>
        if IsHost(conns[sender]) || IsHost(conns[c])
        then Some(PingText(data, conns[c].latency, conns[sender].latency))
        else None
      case DirectRoute(body) =>
        if body.Table? && KeyOf(conns[c].playerId) in body.lookup &&
           body.lookup[KeyOf(conns[c].playerId)].truthy
        then Some(body.lookup[KeyOf(conns[c].playerId)].json)
        else None
      case DefaultRoute(data) => Some(data)
  }

  predicate InTable(conns: seq<Conn>, list: seq<ConnId>) {
    forall k :: 0 <= k < |list| ==> list[k] < |conns|
  }

  datatype Delivery = Delivery(to: ConnId, text: string)

  /** The deliveries of one fan-out, in the order of the channel's list. */
  function Deliveries(conns: seq<Conn>, sender: ConnId, route: Route, list: seq<ConnId>): (ds: seq<Delivery>)
    requires sender < |conns| && InTable(conns, list)
    ensures |ds| <= |list|
    ensures forall k :: 0 <= k < |ds| ==>
              ds[k].to in list && CopyFor(conns, sender, route, ds[k].to) == Some(ds[k].text)
    ensures forall c :: c in list && CopyFor(conns, sender, route, c).Some? ==>
              Delivery(c, CopyFor(conns, sender, route, c).value) in ds
  {
    if list == [] then []
    else
      var init := list[..|list| - 1];
      var last := list[|list| - 1];
      assert list == init + [last];
      var ds := Deliveries(conns, sender, route, init);
      match CopyFor(conns, sender, route, last)
      case Some(t) => ds + [Delivery(last, t)]
      case None => ds
  }

  /** The `forEach` loop of the message handler: one pass over the channel's
      list, sending each recipient the copy its route calls for. */
  method FanOut(conns: seq<Conn>, sender: ConnId, route: Route, list: seq<ConnId>)
    returns (ds: seq<Delivery>)
    requires sender < |conns| && InTable(conns, list)
    ensures ds == Deliveries(conns, sender, route, list)
    ensures forall k :: 0 <= k < |ds| ==>
              ds[k].to in list && ds[k].to != sender && conns[ds[k].to].readyState == Open
  {
    ds := [];
    for i := 0 to |list|
      invariant ds == Deliveries(conns, sender, route, list[..i])
    {
      assert list[..i + 1][..i] == list[..i];
      var copy := CopyFor(conns, sender, route, list[i]);
      if copy.Some? {
        ds := ds + [Delivery(list[i], copy.value)];
      }
    }
    assert list[..|list|] == list;
  }

  /** Ping fan-out: exactly the other open connections where one side is the
      host receive a copy, each with its own latency sum. */
  lemma PingDeliveries(conns: seq<Conn>, sender: ConnId, data: string, list: seq<ConnId>)
    requires sender < |conns| && InTable(conns, list)
    ensures var ds := Deliveries(conns, sender, PingRoute(data), list);
      (forall k :: 0 <= k < |ds| ==>
         var c := ds[k].to;
         c in list && c != sender && conns[c].readyState == Open &&
         (IsHost(conns[sender]) || IsHost(conns[c])) &&
         ds[k].text == PingText(data, conns[c].latency, conns[sender].latency)) &&
      (forall c :: c in list && c != sender && conns[c].readyState == Open &&
         (IsHost(conns[sender]) || IsHost(conns[c]))
         ==> Delivery(c, PingText(data, conns[c].latency, conns[sender].latency)) in ds)
  {
    var ds := Deliveries(conns, sender, PingRoute(data), list);
    forall c | c in list && c != sender && conns[c].readyState == Open &&
                 (IsHost(conns[sender]) || IsHost(conns[c]))
      ensures Delivery(c, PingText(data, conns[c].latency, conns[sender].latency)) in ds
    {
      assert CopyFor(conns, sender, PingRoute(data), c).Some?;
    }
  }

  /** Two players that are not the host never exchange pings. */
  lemma PlayersNeverPingEachOther(conns: seq<Conn>, sender: ConnId, data: string, list: seq<ConnId>)
    requires sender < |conns| && InTable(conns, list)
    requires !IsHost(conns[sender])
    ensures forall d :: d in Deliveries(conns, sender, PingRoute(data), list) ==>
              d.to < |conns| && IsHost(conns[d.to])
  {
    var ds := Deliveries(conns, sender, PingRoute(data), list);
    forall d | d in ds ensures d.to < |conns| && IsHost(conns[d.to]) {
      var k :| 0 <= k < |ds| && ds[k] == d;
    }
  }

  /** Direct fan-out: a recipient gets exactly its own truthy entry of the table,
      serialised; an unparsable message reaches nobody. */
  lemma DirectDeliveries(conns: seq<Conn>, sender: ConnId, body: DirectBody, list: seq<ConnId>)
    requires sender < |conns| && InTable(conns, list)
    ensures body.Unparsable? ==> Deliveries(conns, sender, DirectRoute(body), list) == []
    ensures var ds := Deliveries(conns, sender, DirectRoute(body), list);
      forall k :: 0 <= k < |ds| ==>
        var c := ds[k].to;
        c != sender && conns[c].readyState == Open && body.Table? &&
        KeyOf(conns[c].playerId) in body.lookup &&
        body.lookup[KeyOf(conns[c].playerId)].truthy &&
        ds[k].text == body.lookup[KeyOf(conns[c].playerId)].json
    ensures body.Table? ==>
      forall c :: c in list && c != sender && conns[c].readyState == Open &&
        KeyOf(conns[c].playerId) in body.lookup && body.lookup[KeyOf(conns[c].playerId)].truthy
        ==> Delivery(c, body.lookup[KeyOf(conns[c].playerId)].json) in Deliveries(conns, sender, DirectRoute(body), list)
  {
    var ds := Deliveries(conns, sender, DirectRoute(body), list);
    if body.Table? {
      forall c | c in list && c != sender && conns[c].readyState == Open &&
                 KeyOf(conns[c].playerId) in body.lookup && body.lookup[KeyOf(conns[c].playerId)].truthy
        ensures Delivery(c, body.lookup[KeyOf(conns[c].playerId)].json) in ds
      {
        assert CopyFor(conns, sender, DirectRoute(body), c).Some?;
      }
    }
  }

  /** Default fan-out: every other open connection of the list gets the text
      verbatim, and nobody else gets anything. */
  lemma DefaultDeliveries(conns: seq<Conn>, sender: ConnId, data: string, list: seq<ConnId>)
    requires sender < |conns| && InTable(conns, list)
    ensures var ds := Deliveries(conns, sender, DefaultRoute(data), list);
      (forall k :: 0 <= k < |ds| ==>
         ds[k].to in list && ds[k].to != sender && conns[ds[k].to].readyState == Open && ds[k].text == data) &&
      (forall c :: c in list && c != sender && conns[c].readyState == Open ==> Delivery(c, data) in ds)
  {
    var ds := Deliveries(conns, sender, DefaultRoute(data), list);
    forall c | c in list && c != sender && conns[c].readyState == Open
      ensures Delivery(c, data) in ds
    {
      assert CopyFor(conns, sender, DefaultRoute(data), c) == Some(data);
    }
  }

  /** A ping without the word `latency` is forwarded unchanged. */
  lemma PingWithoutLatencyUnchanged(data: string, recipient: Option<int>, sender: Option<int>)
    requires IndexOf(data, "latency").None?
    ensures PingText(data, recipient, sender) == data
  {
  }
}
