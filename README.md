# Relay server and session store of the Clocktower online town square

This project models, in Dafny, two parts of the town-square web app for the
social-deduction game *Blood on the Clocktower*.

The first part is the **websocket relay server** (`server/index.js`). Browser
clients join a *channel* (one game) as the `host` or as a player. The server
keeps a registry of channels. Each channel is an ordered list of connections.
The server refuses a second open host in a channel. It also refuses a player
id that carries the secret marker `__s_` unless the id equals the digest of a
fixed salt and the client's secret. Every message from a client is counted
against a rate limit of 150 messages per heartbeat window. The text of the
message decides its type: `"ping"`, `"direct"` or default. The message is then
fanned out to the other open connections of the sender's channel. A 30-second
timer terminates connections that did not answer the previous probe, probes
the rest, and deletes channels that have no open or connecting connection
left.

The second part is the **session store** (`src/store/modules/session.js`). It
holds the client-side state of a game session. The model covers all of its
mutations: the setters, session-id normalisation, the nomination reset, vote
toggling and locking, and the vote-history log with its tally and majority.

## Layout

- `optional.dfy`: `Optional.Option`, for JavaScript's `undefined`.
- `text.dfy`: ASCII lower-casing, `split`, first-occurrence search and replace, and integer rendering with a round-trip proof.
- `escape.dfy`: `escapeRegExp` and a proof that escaping loses nothing.
- `connection.dfy`: one connection's state, probe answers (`heartbeat`) and the per-connection step of the timer tick.
- `routing.dfy`: the rate limit, message classification, the ping latency rewrite, and the three fan-out rules as one specification function (`Deliveries`) and one loop (`FanOut`).
- `admission.dfy`: parsing `/channel/playerId` and validating secret-marked ids.
- `relay.dfy`: the class `Relay.Server`. It holds the connection table, the channel registry and the metric counters, with one method per event. It also holds the registry invariant, which includes at most one open host per channel.
- `session.dfy`: the session state as the class `Session.SessionStore`, with one method per mutation, plus the vote helpers.

Sends are modelled as returned lists of `Delivery(to, text)`. `close` moves a
connection to `Closing` and `terminate` moves it to `Closed`. The current time
is a parameter of every event.

## Model

| member | source | states |
|---|---|---|
| `Text.Split` | server/index.js:133-136 | `split("/")`: the pieces contain no separator, there is at least one, and joining them with the separator gives the input back |
| `Text.TakeUntilIs` | server/index.js:220 | the first piece of `split(",", 1)` is `w` exactly when the text starts with `w` followed by the end of the text or a comma |
| `Text.FindFrom` | server/index.js:231-232 | the search returns the first position at or after `from` where the pattern occurs, or none when it occurs nowhere |
| `Text.ReplaceFirst` | server/index.js:231-234 | `replace(/latency/, …)` changes only the first occurrence; text without an occurrence is unchanged |
| `Text.NatToDecimal` | server/index.js:233 | the number rendered as text is non-empty, all digits, with no leading zero |
| `Text.IntToDecimalRoundTrip` | server/index.js:233 | parsing the rendered latency sum gives back the integer |
| `Text.IntToDecimal` | server/index.js:233 | `String(i)` for an integer: a minus sign for negatives, then the digits without leading zeros |
| `Text.Lower` | server/index.js:137 | ASCII lower-casing (also at :220 and `src/store/modules/session.js:66`): same length, each character lower-cased on its own |
| `RegExpEscape.EscapeRegExp` | server/index.js:28-30 | every metacharacter gets a preceding backslash, and the length grows by the number of metacharacters |
| `RegExpEscape.EscapeRoundTrip` | server/index.js:28-30 | reading the escaped pattern literally gives back the original string |
| `Connection.Fresh` | server/index.js:195-197 | an admitted connection is open and alive, with counter 0, `pingStart = now` and no latency yet |
| `Connection.Close` | server/index.js:213-216 | `ws.close(...)` (also at :150 and :190): the connection leaves the open and connecting states and is not yet closed unless it was already; no other field changes |
| `Connection.Terminate` | server/index.js:292 | `ws.terminate()`: the connection is closed at once; no other field changes |
| `Connection.HalfRound` | server/index.js:56 | `Math.round(d/2)`: the result r satisfies d <= 2r <= d+1, which equals floor(d/2 + 1/2) |
| `Connection.Heartbeat` | server/index.js:55-59 | a pong sets latency to half the round trip since `pingStart` (rounded), resets the counter to 0, sets `isAlive`, and changes nothing else |
| `Connection.TickConn` | server/index.js:289-297 | a tick terminates a non-closed connection that is not alive, and marks every other non-closed one not alive with `pingStart = now` |
| `Connection.SilentForTwoTicks` | server/index.js:289-297 | a connection that answers no probe between two ticks is terminated by the second tick |
| `Connection.AnsweredProbeSurvives` | server/index.js:55-59 | a connection that answers the probe before the next tick keeps its state through that tick, with its counter reset |
| `Routing.RateLimitBoundary` | server/index.js:211 | the threshold is 5*30000/1000 = 150; the 150th message of a window passes and the 151st is over the limit |
| `Routing.TypeTag` | server/index.js:220 | the text after the first UTF-16 code unit, lower-cased, up to the first comma; it contains no comma and is a prefix of that text; `None` exactly when the first character takes two code units, so that the tag begins with an unpaired surrogate |
| `Routing.TypeTagIs` | server/index.js:220 | the type tag equals a comma-free tag exactly when the first character is one code unit and the lower-cased text after it starts with the tag, followed by the end or a comma |
| `Routing.Classify` | server/index.js:220-222 | ping exactly when the first character is one code unit and the text after it is `"ping"` (case-insensitive) up to a comma or the end; direct likewise for `"direct"`; default otherwise |
| `Routing.AstralFirstCharIsDefault` | server/index.js:220-222 | a message whose first character lies outside the Basic Multilingual Plane is routed as default, whatever follows |
| `Routing.TagAtEndIsPing` | server/index.js:220-222 | a tag that ends the text counts: `["ping"` is a ping |
| `Routing.Deliveries` | server/index.js:224-281 | a fan-out delivers only to members of the given list, each with the copy its route calls for, and every member that a route calls for is delivered to |
| `Routing.FanOut` | server/index.js:224-238 | the `forEach` delivery loop yields exactly `Deliveries` (in list order), never to the sender and only to open connections |
| `Relay.DeliveriesInListOrder` | server/index.js:224-281 | a fan-out sends in the order of the channel's list, and over a list without repeats (which the registry keeps) each recipient gets exactly one copy |
| `Routing.PingDeliveries` | server/index.js:222-238 | a ping reaches exactly the other open connections of the channel where the sender or the recipient is the host; each copy has the latency sum of the two, with missing latency counted as 0 |
| `Routing.PlayersNeverPingEachOther` | server/index.js:228 | a ping from a non-host reaches only hosts |
| `Routing.DirectDeliveries` | server/index.js:240-265 | a direct message reaches exactly the other open connections whose player id has a truthy entry in element 1, each receiving that entry serialised; an unparsable message reaches nobody |
| `Routing.DefaultDeliveries` | server/index.js:266-281 | any other message reaches every other open connection of the channel verbatim, and nobody else |
| `Routing.PingWithoutLatencyUnchanged` | server/index.js:231-234 | a ping without the word `latency` is forwarded unchanged |
| `Routing.PingText` | server/index.js:231-234 | the copy for one recipient: the first `latency` is replaced by the decimal sum of the two latencies, a missing one counted as 0; text without `latency` is unchanged |
| `Routing.CopyFor` | server/index.js:224-281 | the per-recipient test of the three `forEach` loops (:225-229, :253-257, :276): nothing for the sender or for a connection that is not open; a default message is copied verbatim to every other open connection |
| `Admission.ParsePath` | server/index.js:132-137 | channel and player id contain no `/`; the player id is absent exactly when the path has a single segment |
| `Admission.StripLeadingSlash` | server/index.js:134 | removes exactly one leading `/` when there is one, and otherwise leaves the path as is |
| `Admission.ParsePathRoundTrip` | server/index.js:133-137 | `/channel/playerId…` parses to the lower-cased channel and the player id; segments after the second are ignored |
| `Admission.ParsePathChannelOnly` | server/index.js:133-137 | a one-segment path `/channel` gives the lower-cased channel and no player id |
| `Admission.ValidationCases` | server/index.js:155-194 | ids without the `__s_` prefix skip the check; with the prefix, an absent or empty secret always fails, and otherwise the id must equal `__s_` + digest(salt ++ decode(secret)) |
| `Relay.TimedOutCount` | server/index.js:290-292 | the timeout counter rises by at most the number of connections, and by 0 exactly when no connection times out |
| `Relay.UpdateKeepsRegistry` | server/index.js:55-59 | changing one connection without making it live or an open host, and without moving it, keeps the registry invariant |
| `Relay.AdmitKeepsRegistry` | server/index.js:139-202 | appending a connection that is not a second open host of its channel keeps the invariant, including at most one open host per channel |
| `Relay.SweepKeepsRegistry` | server/index.js:299-311 | the sweep keeps the invariant: no open or connecting connection loses its channel |
| `Relay.Swept` | server/index.js:299-311 | the channels left after the sweep: exactly those whose list holds an open or connecting connection (an empty list holds none), with their lists untouched |
| `Relay.HostTaken` | server/index.js:139-147 | the duplicate-host test: the id is `host` and the channel's list holds an OPEN host; the joining socket is not yet listed, so `client !== ws` excludes nothing |
| `Relay.Server.constructor` | server/index.js:62-121 | the server starts with no channels, no connections and all counters at 0 |
| `Relay.Server.Connect` | server/index.js:130-205 | refused as duplicate host exactly when the id is `host` and the channel already has an OPEN host; refused on validation exactly when otherwise the secret check fails; on the channel names `constructor` and `__proto__` (keys every plain object inherits) a validated connection is not registered, because the handler throws; a connection that is not admitted changes no channel or connection, and only a refusal bumps its counter; an admitted one is appended at the end of its lower-cased channel's list (created if absent), and no other channel changes; no channel key is ever an inherited name |
| `Relay.Server.Pong` | server/index.js:55-59 | on a connection that is not yet closed, only the answering connection changes, as `Heartbeat` says |
| `Relay.Server.Receive` | server/index.js:207-283 | every message on a connection that is not yet closed bumps `incoming` and the sender's counter; over 150 the sender is closed, the spam counter rises by 1 and nothing is delivered; otherwise the deliveries are exactly the fan-out of the classified message over the sender's channel, no connection gets two copies, `outgoing` rises by their number, and no channel changes |
| `Relay.Server.Tick` | server/index.js:287-313 | each connection takes its `TickConn` step, the timeout counter rises by the number terminated, and a channel survives exactly when it still holds an open or connecting connection, with its list unchanged |
| `Relay.Server.CheckLiveness` | server/index.js:289-297 | the liveness loop applies `TickConn` to every connection and counts the terminations |
| `Relay.Server.SweepChannels` | server/index.js:299-312 | the clean-up loop deletes exactly the channels without an open or connecting connection |
| `Session.KeepSessionChars` | src/store/modules/session.js:67 | the result is no longer than the input and contains only `[0-9a-z]`; a character occurs in it exactly when it occurs in the input and is in `[0-9a-z]`; an input made only of them is kept whole |
| `Session.KeepSessionCharsOne` | src/store/modules/session.js:67 | one character is kept exactly when it is in `[0-9a-z]` |
| `Session.KeepSessionCharsAppend` | src/store/modules/session.js:67 | the filter distributes over concatenation, so it keeps order and repeats |
| `Session.NormalizeSessionId` | src/store/modules/session.js:64-69 | the id has at most 10 characters, all in `[0-9a-z]`, and is the first min(10, n) characters of the lower-cased, filtered input |
| `Session.NormalizeSessionIdIdempotent` | src/store/modules/session.js:64-69 | normalising a normalised id changes nothing |
| `Session.Toggle` | src/store/modules/session.js:12 | `Math.abs(v - 1)`: undefined or NaN give NaN; a number n gives the non-negative one of n-1 and 1-n, so n-1 for n >= 1 and 0 and 1 swap |
| `Session.ToggleTwice` | src/store/modules/session.js:12 | toggling a 0/1 vote twice restores it |
| `Session.WithVote` | src/store/modules/session.js:10-12 | only element `index` changes; writing past the end grows the array to `index + 1` with holes in between |
| `Session.SlotAt` | src/store/modules/session.js:12 | reading `votes[i]`: past the end of the array it is `undefined` (a hole) |
| `Session.VoteCount` | src/store/modules/session.js:92 | the iterations of `j < votes[i]`: the number itself when positive, and 0 for zero, negatives, `undefined` and `NaN` |
| `Session.Tally` | src/store/modules/session.js:90-95 | the vote list's length is the sum of the seats' vote counts |
| `Session.CollectVotes` | src/store/modules/session.js:90-95 | the nested loops build each seat's name repeated by its vote count, in seat order |
| `Session.Voters` | src/store/modules/session.js:103 | the majority base is at most the number of players, and equals it exactly when the vote is an exile or nobody is dead |
| `Session.Majority` | src/store/modules/session.js:102-104 | `Math.ceil(k/2)` is the least m with 2m >= k |
| `Session.HistoryEntry` | src/store/modules/session.js:89-106 | the entry names nominator and nominee; its type is `Exile` exactly when the nominee is a traveller, else `Execution`; its majority is ceil(k/2) of the counted players; its votes are the tally |
| `Session.SessionStore.constructor` | src/store/modules/session.js:15-36 | the initial session state |
| `Session.SessionStore.SetPlayerId` | src/store/modules/session.js:48 | writes `playerId` and no other field |
| `Session.SessionStore.SetPlayerSecret` | src/store/modules/session.js:49 | writes `playerSecret` and no other field |
| `Session.SessionStore.SetSpectator` | src/store/modules/session.js:50 | writes `isSpectator` and no other field |
| `Session.SessionStore.SetReconnecting` | src/store/modules/session.js:51 | writes `isReconnecting` and no other field |
| `Session.SessionStore.SetPlayerCount` | src/store/modules/session.js:52 | writes `playerCount` and no other field |
| `Session.SessionStore.SetPing` | src/store/modules/session.js:53 | writes `ping` and no other field |
| `Session.SessionStore.SetVotingSpeed` | src/store/modules/session.js:54 | writes `votingSpeed` and no other field |
| `Session.SessionStore.SetVoteInProgress` | src/store/modules/session.js:55 | writes `isVoteInProgress` and no other field |
| `Session.SessionStore.SetMarkedPlayer` | src/store/modules/session.js:56 | writes `markedPlayer` and no other field |
| `Session.SessionStore.SetNomination` | src/store/modules/session.js:57 | writes `nomination` and no other field |
| `Session.SessionStore.SetAllowSelfNaming` | src/store/modules/session.js:58 | writes `allowSelfNaming` and no other field |
| `Session.SessionStore.SetVoteHistoryAllowed` | src/store/modules/session.js:59 | writes `isVoteHistoryAllowed` and no other field |
| `Session.SessionStore.SetVoteWatchingAllowed` | src/store/modules/session.js:60 | writes `isVoteWatchingAllowed` and no other field |
| `Session.SessionStore.SetTwoVotesEnabled` | src/store/modules/session.js:61 | writes `isTwoVotesEnabled` and no other field |
| `Session.SessionStore.ClaimSeat` | src/store/modules/session.js:62 | writes `claimedSeat` and no other field |
| `Session.SessionStore.DistributeRoles` | src/store/modules/session.js:63 | writes `isRolesDistributed` and no other field |
| `Session.SessionStore.SetSessionId` | src/store/modules/session.js:64-69 | stores the normalised id and nothing else |
| `Session.SessionStore.Nomination` | src/store/modules/session.js:70-79 | missing or falsy fields reset to no nomination, `[]`, 0 and false; a missing or zero voting speed keeps the previous one; no other field changes |
| `Session.SessionStore.HandleVote` | src/store/modules/session.js:8-13 | without a nomination the votes are unchanged; otherwise only `votes[index]` changes, to the given vote or to the toggled old value |
| `Session.SessionStore.RecordsHistory` | src/store/modules/session.js:87-88 | a vote is recorded unless a spectator may not see the history, there is no nomination, or `lockedVote` does not exceed the number of players |
| `Session.SessionStore.AddHistory` | src/store/modules/session.js:86-107 | the history is unchanged when a spectator may not see it, when there is no nomination, or when `lockedVote <= players.length`; otherwise exactly `HistoryEntry` is appended and earlier entries stay, unless a nominated seat does not exist (the source throws) |
| `Session.SessionStore.ClearVoteHistory` | src/store/modules/session.js:108-110 | the history becomes empty and nothing else changes |
| `Session.SessionStore.LockVote` | src/store/modules/session.js:119-121 | a given lock is stored as is; with none, `lockedVote` rises by exactly 1 |

Every setter and mutation method names the fields it may write in its
`modifies` clause. Dafny therefore checks that no other field changes.

## Behaviour of the code worth knowing

- The duplicate-host check looks only at OPEN hosts (`server/index.js:145`), not at connecting ones.
- Connections are never removed from a channel's list one by one. A timed-out connection stays listed, as `Closed`. Whole channels are deleted only by the sweep (`server/index.js:299-311`).
- The salt prepended to the secret is the 16 bytes at `server/index.js:161-176`.
- The rate-limit counter is reset only by a probe answer (`server/index.js:57`), not by the timer.
- Message classification is a textual prefix test on the raw text (`server/index.js:220`). A space before the tag, or a tag followed by anything other than a comma or the end of the text, gives the default route.
- JavaScript strings are sequences of UTF-16 code units, and `substr(1)` drops one code unit. When the first character lies outside the Basic Multilingual Plane, the rest begins with an unpaired surrogate. Such a message is then never a ping or a direct message. The model keeps this: `Routing.TypeTag` reports such a tag as `None`.
- The doc comment of `handleVote` (`src/store/modules/session.js:3`) says votes from locked seats are ignored. The code does not check this, and neither does `HandleVote`.
- A message can arrive on a connection whose channel has been swept. Such a connection is closing, because open ones are always listed. The handler then reads the list of a missing channel. The model reports `ChannelMissing` and delivers nothing. In the source, a ping or default message throws a TypeError out of the handler. For a direct message the TypeError is caught by the `try` at `server/index.js:250-264`.
- The registry is a plain object (`server/index.js:62`). Its lookups `channels["constructor"]` and `channels["__proto__"]` return inherited, truthy values. A connection whose lower-cased channel is one of these names makes the handler throw a TypeError: a host at the duplicate-host test (`server/index.js:142`), anyone else who passes validation at the append (`server/index.js:202`). `Connect` reports `InheritedChannel` and registers nothing.

## Left out

- TLS certificate loading, the HTTPS server, `listen`, and the metrics HTTP endpoint (`server/index.js:17-26, 42, 320-328`): these are I/O.
- Origin matching with `RegExp` in `verifyClient` (`server/index.js:32-50`): it needs a regular-expression engine. As written, `regex` is declared inside the `if`/`else` blocks and is not in scope where `verifyClient` uses it. Only `escapeRegExp` is modelled.
- SHA-256, the base64url encoding of the digest and the lenient base64url decoder: these are the function-valued constants `digest` and `decodeSecret` of `Relay.Server`, given to its constructor. Only the equality test is modelled.
- `JSON.parse` and `JSON.stringify` in direct routing: element 1 of the parsed message is the parameter `body` of `Receive`. It is either unparsable (parse failure, or element 1 undefined or null, so that the lookup throws and the error is caught) or a lookup table from property name to a value's serialisation and truthiness. Inherited properties and the "undefined" key of an id-less connection are part of that table.
- `decodeURIComponent`, URL parsing beyond the path and the `secret` parameter, and Unicode-aware `toLowerCase`/`toLocaleLowerCase`: lower-casing is ASCII only. `Session.NormalizeSessionId` and `Routing.Classify` therefore do not cover characters whose Unicode lower case differs in length or falls in `[a-z]`, such as the Kelvin sign.
- `Text.IntToDecimal`: does not model JavaScript's exponent notation for magnitudes of 10^21 and above.
- The websocket library's own behaviour: asynchronous `send` and `ping`, readyState changes driven by the peer, the close handshake completing, and refused sockets lingering in the client set. The server's client set is modelled as the admitted connections that are not `Closed`. Liveness probes are not modelled as deliveries; only `pingStart` records them.
- The prom-client registry and the gauges (`server/index.js:8-13, 65-97`): only the six counters are kept, as nat fields.
- `console.log`, `new Date()` (time is the `now` parameter, and the history timestamp is dropped), `setInterval`/`clearInterval` and the event loop: each event is one atomic method.
- The Vuex module wiring (`src/store/modules/session.js:124-130`) and the `messages` field, which no mutation here touches. `vote` and `voteSync` are both `HandleVote`.
- Relay.Server.Connect: for the `InheritedChannel` outcome the model does not keep the socket itself. In the source it stays open and in the client set, without pong or message handlers, until the timer terminates it. What the thrown TypeError does to the process afterwards depends on the websocket library and is not modelled.
- Relay.Server.Pong, Relay.Server.Receive: require a connection that is not `Closed`, since a terminated socket delivers no further events.
- Negative seat indexes and non-numeric vote values in the session store: seat indexes are nats, and votes are numbers, holes or NaN.
