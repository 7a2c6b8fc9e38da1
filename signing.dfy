/** The exchange's request-signing convention as the proxy applies it: a
    seconds-precision timestamp, the canonical "pre-hash" message
    `timestamp + method + path + body`, its keyed signature, and the five
    headers every signed call carries. */
module Signing {
  import opened JsValues
  import Json

  /** The keyed signature primitive: Base64 of HMAC-SHA256(message, key). */
  type Mac = (string, string) -> string

  /** The process-wide credentials, read once at start-up. */
  datatype Credentials = Credentials(apiKey: string, secret: string, passphrase: string)

  /** `s` has the shape of `pattern`, where 'd' stands for any decimal digit
      and every other character stands for itself. */
  predicate Matches(s: string, pattern: string) {
    |s| == |pattern| &&
    forall i :: 0 <= i < |s| ==>
      if pattern[i] == 'd' then '0' <= s[i] <= '9' else s[i] == pattern[i]
  }

  /** What `Date.prototype.toISOString` produces for years 0 to 9999. */
  const IsoPattern := "dddd-dd-ddTdd:dd:dd.dddZ"
  /** The timestamp format the exchange expects. */
  const SecondsPattern := "dddd-dd-ddTdd:dd:ddZ"

  /** `iso.slice(0, -5) + 'Z'`: the clock reading with its last five
      characters (the milliseconds and the zone letter) replaced by `Z`. */
  function Timestamp(iso: string): (t: string)
    ensures |t| >= 1 && t[|t| - 1] == 'Z'
    ensures |iso| >= 5 ==> |t| == |iso| - 4 && t[..|t| - 1] == iso[..|iso| - 5]
    ensures |iso| < 5 ==> t == "Z"
  {
    (if |iso| >= 5 then iso[..|iso| - 5] else "") + "Z"
  }

  /** A well-formed ISO clock reading becomes a 20-character timestamp of
      seconds precision that keeps its date and time up to the seconds. */
  lemma TimestampHasSecondsPrecision(iso: string)
    requires Matches(iso, IsoPattern)
    ensures Matches(Timestamp(iso), SecondsPattern)
    ensures |Timestamp(iso)| == 20 && Timestamp(iso)[..19] == iso[..19]
  {
    var t := Timestamp(iso);
    assert t == iso[..19] + "Z";
    forall i | 0 <= i < 20
      ensures if SecondsPattern[i] == 'd' then '0' <= t[i] <= '9' else t[i] == SecondsPattern[i]
    {
      if i < 19 {
        assert SecondsPattern[i] == IsoPattern[i];
        assert t[i] == iso[i];
      }
    }
  }

  /** What follows the path in the pre-hash message: the serialised body, or
      nothing when the call has no body. */
  function BodyText(body: Option<Object>): (r: string)
    ensures r == "" <==> body.None?
    ensures body.Some? ==> r == Json.Stringify(body.value)
  {
    match body
    case None => ""
    case Some(o) => Json.Stringify(o)
  }

  /** The canonical message: the four parts in order with nothing between them. */
  function PreHash(timestamp: string, verb: string, path: string, body: Option<Object>): (m: string)
    ensures |m| == |timestamp| + |verb| + |path| + |BodyText(body)|
    ensures m[..|timestamp|] == timestamp
    ensures m[|timestamp|..|timestamp| + |verb|] == verb
    ensures m[|timestamp| + |verb|..|timestamp| + |verb| + |path|] == path
    ensures m[|timestamp| + |verb| + |path|..] == BodyText(body)
  {
    timestamp + verb + path + BodyText(body)
  }

  /** Two messages with the same timestamp, method and path agree exactly when
      their bodies serialise alike: nothing else enters the message. */
  lemma PreHashDeterminedByParts(timestamp: string, verb: string, path: string, b1: Option<Object>, b2: Option<Object>)
    ensures PreHash(timestamp, verb, path, b1) == PreHash(timestamp, verb, path, b2)
        <==> BodyText(b1) == BodyText(b2)
  {
    var n := |timestamp| + |verb| + |path|;
    if PreHash(timestamp, verb, path, b1) == PreHash(timestamp, verb, path, b2) {
      assert PreHash(timestamp, verb, path, b1)[n..] == PreHash(timestamp, verb, path, b2)[n..];
    }
  }

  const ContentType := "Content-Type"
  const AccessKey := "OK-ACCESS-KEY"
  const AccessSign := "OK-ACCESS-SIGN"
  const AccessTimestamp := "OK-ACCESS-TIMESTAMP"
  const AccessPassphrase := "OK-ACCESS-PASSPHRASE"

  /** The headers of a signed call, in the order the proxy writes them. */
  function AuthHeaders(timestamp: string, signature: string, cred: Credentials): (hs: seq<(string, string)>)
    ensures Keys(hs) == [ContentType, AccessKey, AccessSign, AccessTimestamp, AccessPassphrase]
    ensures Get(hs, ContentType) == Some("application/json")
    ensures Get(hs, AccessKey) == Some(cred.apiKey)
    ensures Get(hs, AccessSign) == Some(signature)
    ensures Get(hs, AccessTimestamp) == Some(timestamp)
    ensures Get(hs, AccessPassphrase) == Some(cred.passphrase)
  {
    var hs := [ (ContentType, "application/json"),
                (AccessKey, cred.apiKey),
                (AccessSign, signature),
                (AccessTimestamp, timestamp),
                (AccessPassphrase, cred.passphrase) ];
    assert |ContentType| == 12 && |AccessKey| == 13 && |AccessSign| == 14;
    assert |AccessTimestamp| == 19 && |AccessPassphrase| == 20;
    GetFirst(hs, 2);
    GetFirst(hs, 3);
    GetFirst(hs, 4);
    hs
  }
}
