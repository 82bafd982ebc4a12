/** What the relay server reads from a new connection's handshake: the channel
    and player id from the URL path, and the check of secret-marked player ids. */
module Admission {
  import opened Optional
  import opened Text

  /** `replace(/^\//, "")`: one leading slash is removed, if present. */
  function StripLeadingSlash(pathname: string): (r: string)
    ensures "/" + r == pathname || (r == pathname && (pathname == [] || pathname[0] != '/'))
  {
    if |pathname| > 0 && pathname[0] == '/' then pathname[1..] else pathname
  }

  /** `[channel, playerId]` from the path `/channel/playerId`, with the channel
      lower-cased; the player id is absent when the path has a single segment,
      and segments after the second are ignored. */
  function ParsePath(pathname: string): (r: (string, Option<string>))
    ensures '/' !in r.0
    ensures r.1.None? <==> '/' !in StripLeadingSlash(pathname)
    ensures r.1.Some? ==> '/' !in r.1.value
  {
    var segments := Split(StripLeadingSlash(pathname), '/');
    if |segments| == 1 then
      assert Join(segments, '/') == segments[0];
      (Lower(segments[0]), None)
    else
      assert '/' in Join(segments, '/');
      (Lower(segments[0]), Some(segments[1]))
  }

  /** A path `/channel/playerId...` parses to the lower-cased channel and the
      player id; whatever follows a further `/` is ignored. */
  lemma ParsePathRoundTrip(channel: string, playerId: string, rest: string)
    requires '/' !in channel && '/' !in playerId
    requires rest == [] || rest[0] == '/'
    ensures ParsePath("/" + channel + "/" + playerId + rest) == (Lower(channel), Some(playerId))
  {
    var path := "/" + channel + "/" + playerId + rest;
    assert path[0] == '/' && path[1..] == channel + "/" + playerId + rest;
    var s := StripLeadingSlash(path);
    assert s == channel + "/" + playerId + rest;
    TakeUntilIs(s, '/', channel);
    var tail := s[|channel| + 1..];
    assert tail == playerId + rest;
    TakeUntilIs(tail, '/', playerId);
  }

  /** A path with a single segment names only a channel: the player id is absent. */
  lemma ParsePathChannelOnly(channel: string)
    requires '/' !in channel
    ensures ParsePath("/" + channel) == (Lower(channel), None)
  {
    assert ("/" + channel)[1..] == channel;
    var s := StripLeadingSlash("/" + channel);
    assert s == channel;
    TakeUntilIs(s, '/', channel);
  }

  /** The reserved prefix of player ids derived from a secret. */
  const SecretPrefix := "__s_"

  /** The fixed application salt prepended to the secret bytes before hashing. */
  const Salt: seq<bv8> := [155, 113, 7, 193, 229, 225, 124, 147, 153, 27, 254, 60, 164, 234, 108, 10]

  predicate SecretMarked(playerId: Option<string>) {
    playerId.Some? && SecretPrefix <= playerId.value
  }

  /** The only player id a secret entitles to: the prefix followed by the
      base64url SHA-256 digest of salt and decoded secret.  An absent or empty
      secret entitles to none. `digest` stands for base64url(SHA-256(.)) and
      `decode` for the lenient base64url decoder. */
  function ExpectedPlayerId(secret: Option<string>, digest: seq<bv8> -> string,
                            decode: string -> seq<bv8>): Option<string>
  {
    if secret.None? || secret.value == "" then None
    else Some(SecretPrefix + digest(Salt + decode(secret.value)))
  }

  /** The impersonation check: ids without the prefix pass, the others must
      equal the id derived from the secret. */
  predicate Validates(playerId: Option<string>, secret: Option<string>,
                      digest: seq<bv8> -> string, decode: string -> seq<bv8>)
  {
    !SecretMarked(playerId) || playerId == ExpectedPlayerId(secret, digest, decode)
  }

  lemma ValidationCases(playerId: Option<string>, secret: Option<string>,
                        digest: seq<bv8> -> string, decode: string -> seq<bv8>)
    ensures !SecretMarked(playerId) ==> Validates(playerId, secret, digest, decode)
    ensures SecretMarked(playerId) && (secret.None? || secret.value == "") ==>
              !Validates(playerId, secret, digest, decode)
    ensures SecretMarked(playerId) && secret.Some? && secret.value != "" ==>
              (Validates(playerId, secret, digest, decode) <==>
               playerId.value == SecretPrefix + digest(Salt + decode(secret.value)))
  {
  }
}
