/** The proxy's three routes. Each builds its parameters, signs the call,
    hands it to the exchange and either relays the exchange's answer or turns
    the failure into a fixed error shape. A handler is a function of the
    inbound request, the clock reading, the credentials, the signature
    primitive and the exchange (a function from the call sent to its outcome). */
module Proxy {
  import opened JsValues
  import Json
  import opened Signing

  const BaseUrl := "https://www.okx.com"
  const CollectionsPath := "/api/v5/mktplace/nft/fractal-ordinals/collections"
  const InscriptionsPath := "/api/v5/mktplace/nft/fractal-ordinals/get-valid-inscriptions"
  const TradeHistoryPath := "/api/v5/mktplace/nft/fractal-ordinals/trade-history"

  const CollectionsFailed := "Failed to fetch ordinals data"
  const TradeHistoryFailed := "Failed to fetch trade history"

  /** A call to the exchange as it goes on the wire. */
  datatype Outbound = Outbound(verb: string, url: string, headers: seq<(string, string)>, body: Option<Object>)

  /** An error answer from the exchange: its HTTP status and the `code` and
      `msg` of its body (`Undefined` where the body has none). */
  datatype ErrorResponse = ErrorResponse(status: int, code: JsValue, msg: JsValue)

  /** A failed call: the exchange's error answer when one arrived (none on a
      timeout or a network error), and the error's own message. */
  datatype Failure = Failure(response: Option<ErrorResponse>, message: string)

  datatype Outcome<P> = Delivered(payload: P) | Failed(failure: Failure)

  /** What the proxy answers: the exchange's body verbatim, or an object of its own. */
  datatype ReplyBody<P> = Relayed(payload: P) | Fields(fields: Object)
  datatype Reply<P> = Reply(status: int, body: ReplyBody<P>)

  /** One handled request: the call sent to the exchange and the reply to the client. */
  datatype Exchange<P> = Exchange(sent: Outbound, reply: Reply<P>)

  /** The exchange's check of a call: it recomputes the pre-hash message from
      what arrived (timestamp header, method, path after the host, body) and
      compares its signature with the signature header. */
  predicate Authentic(r: Outbound, cred: Credentials, hmacB64: Mac) {
    && |BaseUrl| <= |r.url| && r.url[..|BaseUrl|] == BaseUrl
    && Get(r.headers, ContentType) == Some("application/json")
    && Get(r.headers, AccessKey) == Some(cred.apiKey)
    && Get(r.headers, AccessPassphrase) == Some(cred.passphrase)
    && Get(r.headers, AccessTimestamp).Some?
    && Get(r.headers, AccessSign)
       == Some(hmacB64(PreHash(Get(r.headers, AccessTimestamp).value, r.verb, r.url[|BaseUrl|..], r.body), cred.secret))
  }

  /** The signing steps every route shares: stamp, sign what is sent, attach
      the headers. */
  function SignedCall(verb: string, path: string, body: Option<Object>, iso: string,
                      cred: Credentials, hmacB64: Mac): (r: Outbound)
    ensures Authentic(r, cred, hmacB64)
    ensures r.verb == verb && r.url == BaseUrl + path && r.body == body
    ensures Get(r.headers, AccessTimestamp) == Some(Timestamp(iso))
  {
    var timestamp := Timestamp(iso);
    var signature := hmacB64(PreHash(timestamp, verb, path, body), cred.secret);
    var r := Outbound(verb, BaseUrl + path, AuthHeaders(timestamp, signature, cred), body);
    assert r.url[|BaseUrl|..] == path;
    r
  }

  // ---------------------------------------------------------------- collections

  /** `req.query.slug || ''` */
  function SlugParam(query: seq<(string, string)>): (slug: string)
    ensures Get(query, "slug").None? ==> slug == ""
    ensures Get(query, "slug").Some? ==> slug == Get(query, "slug").value
  {
    match Get(query, "slug")
    case Some(s) => s
    case None => ""
  }

  /** The query string of the collections call: a fixed limit of 20 and a
      fixed `isBrc20=false` around the slug, which is not encoded. */
  function CollectionsQuery(slug: string): (q: string)
    ensures |q| == 15 + |slug| + 14
    ensures q[..15] == "?limit=20&slug=" && q[15..15 + |slug|] == slug && q[15 + |slug|..] == "&isBrc20=false"
  {
    "?limit=" + "20" + "&slug=" + slug + "&isBrc20=false"
  }

  /** GET /api/ordinals */
  function HandleCollections<P>(query: seq<(string, string)>, iso: string, cred: Credentials,
                                hmacB64: Mac, upstream: Outbound -> Outcome<P>): (x: Exchange<P>)
    ensures Authentic(x.sent, cred, hmacB64)
    ensures x.sent.verb == "GET" && x.sent.body == None
    ensures x.sent.url == BaseUrl + CollectionsPath + CollectionsQuery(SlugParam(query))
    ensures Get(x.sent.headers, AccessTimestamp) == Some(Timestamp(iso))
    ensures upstream(x.sent).Delivered? ==> x.reply == Reply(200, Relayed(upstream(x.sent).payload))
    ensures upstream(x.sent).Failed? ==> x.reply == Reply(500, Fields([("error", Str(CollectionsFailed))]))
  {
    var path := CollectionsPath + CollectionsQuery(SlugParam(query));
    var sent := SignedCall("GET", path, None, iso, cred, hmacB64);
    assert BaseUrl + path == BaseUrl + CollectionsPath + CollectionsQuery(SlugParam(query));
    match upstream(sent)
    case Delivered(p) => Exchange(sent, Reply(200, Relayed(p)))
    case Failed(_) => Exchange(sent, Reply(500, Fields([("error", Str(CollectionsFailed))])))
  }

  /** The collections call reads nothing of the query but the slug: a
      caller's `limit` or `isBrc20` changes neither the call nor the reply. */
  lemma CollectionsReadOnlySlug<P>(q1: seq<(string, string)>, q2: seq<(string, string)>, iso: string,
                                   cred: Credentials, hmacB64: Mac, upstream: Outbound -> Outcome<P>)
    requires Get(q1, "slug") == Get(q2, "slug")
    ensures HandleCollections(q1, iso, cred, hmacB64, upstream) == HandleCollections(q2, iso, cred, hmacB64, upstream)
  {
  }

  // ---------------------------------------------------------------- inscriptions

  /** The body of the inscriptions call. */
  function InscriptionsBody(req: Object): (body: Object)
    ensures |body| >= 4 && Keys(body)[..4] == ["slug", "walletAddress", "limit", "isBrc20"]
    ensures Keys(body)[4..] == TruthyKeys(req, ["cursor", "sort"])
    ensures body[0].1 == Prop(req, "slug") && body[1].1 == Prop(req, "walletAddress")
    ensures Truthy(body[2].1)
    ensures Truthy(Prop(req, "limit")) ==> body[2].1 == Prop(req, "limit")
    ensures !Truthy(Prop(req, "limit")) ==> body[2].1 == Str("10")
    ensures !Nullish(body[3].1)
    ensures !Nullish(Prop(req, "isBrc20")) ==> body[3].1 == Prop(req, "isBrc20")
    ensures Nullish(Prop(req, "isBrc20")) ==> body[3].1 == Bool(false)
    ensures forall i :: 4 <= i < |body| ==> Truthy(body[i].1) && body[i].1 == Prop(req, body[i].0)
  {
    var base := [ ("slug", Prop(req, "slug")),
                  ("walletAddress", Prop(req, "walletAddress")),
                  ("limit", Or(Prop(req, "limit"), Str("10"))),
                  ("isBrc20", Coalesce(Prop(req, "isBrc20"), Bool(false))) ];
    var optional := SpreadTruthy(req, ["cursor", "sort"]);
    assert Keys(base) == ["slug", "walletAddress", "limit", "isBrc20"];
    KeysAppend(base, optional);
    assert (base + optional)[4..] == optional;
    base + optional
  }

  /** The error object both POST routes answer with; `data` is always null. */
  function ErrorEnvelope(code: JsValue, msg: JsValue): (o: Object)
    ensures Keys(o) == ["code", "msg", "data"]
    ensures Get(o, "code") == Some(code) && Get(o, "msg") == Some(msg) && Get(o, "data") == Some(Null)
  {
    var o := [("code", code), ("msg", msg), ("data", Null)];
    GetFirst(o, 1);
    GetFirst(o, 2);
    o
  }

  /** `error.response?.data?.code` */
  function UpstreamCode(f: Failure): (code: JsValue)
    ensures f.response.None? ==> code == Undefined
    ensures f.response.Some? ==> code == f.response.value.code
  {
    if f.response.Some? then f.response.value.code else Undefined
  }

  /** `error.response?.data?.msg` */
  function UpstreamMsg(f: Failure): (msg: JsValue)
    ensures f.response.None? ==> msg == Undefined
    ensures f.response.Some? ==> msg == f.response.value.msg
  {
    if f.response.Some? then f.response.value.msg else Undefined
  }

  /** The inscriptions route's error reply: the exchange's status, code and
      message where it gave them, else 500, the string "50026" and the
      error's own message. */
  function InscriptionsFailureReply<P>(f: Failure): (r: Reply<P>)
    ensures r.body.Fields? && Keys(r.body.fields) == ["code", "msg", "data"]
    ensures Get(r.body.fields, "data") == Some(Null)
    ensures f.response.Some? && f.response.value.status != 0 ==> r.status == f.response.value.status
    ensures f.response.None? || f.response.value.status == 0 ==> r.status == 500
    ensures Truthy(Prop(r.body.fields, "code"))
    ensures Truthy(UpstreamCode(f)) ==> Get(r.body.fields, "code") == Some(UpstreamCode(f))
    ensures !Truthy(UpstreamCode(f)) ==> Get(r.body.fields, "code") == Some(Str("50026"))
    ensures Truthy(UpstreamMsg(f)) ==> Get(r.body.fields, "msg") == Some(UpstreamMsg(f))
    ensures !Truthy(UpstreamMsg(f)) ==> Get(r.body.fields, "msg") == Some(Str(f.message))
  {
    var status := if f.response.Some? && f.response.value.status != 0 then f.response.value.status else 500;
    Reply(status, Fields(ErrorEnvelope(Or(UpstreamCode(f), Str("50026")), Or(UpstreamMsg(f), Str(f.message)))))
  }

  /** POST /api/inscriptions */
  function HandleInscriptions<P>(req: Object, iso: string, cred: Credentials,
                                 hmacB64: Mac, upstream: Outbound -> Outcome<P>): (x: Exchange<P>)
    ensures Authentic(x.sent, cred, hmacB64)
    ensures x.sent.verb == "POST" && x.sent.url == BaseUrl + InscriptionsPath
    ensures x.sent.body == Some(InscriptionsBody(req))
    ensures Get(x.sent.headers, AccessTimestamp) == Some(Timestamp(iso))
    ensures upstream(x.sent).Delivered? ==> x.reply == Reply(200, Relayed(upstream(x.sent).payload))
    ensures upstream(x.sent).Failed? ==> x.reply == InscriptionsFailureReply(upstream(x.sent).failure)
  {
    var sent := SignedCall("POST", InscriptionsPath, Some(InscriptionsBody(req)), iso, cred, hmacB64);
    match upstream(sent)
    case Delivered(p) => Exchange(sent, Reply(200, Relayed(p)))
    case Failed(f) => Exchange(sent, InscriptionsFailureReply(f))
  }

  /** The serialised inscriptions body carries `slug` and `walletAddress`
      unless the request left them undefined, then `limit` and `isBrc20`
      always, then `cursor` and `sort` when the client gave them truthy: an
      optional key is absent, never null. */
  lemma InscriptionsWireKeys(req: Object)
    ensures Keys(Json.Wire(InscriptionsBody(req)))
         == (if Prop(req, "slug") != Undefined then ["slug"] else [])
          + (if Prop(req, "walletAddress") != Undefined then ["walletAddress"] else [])
          + ["limit", "isBrc20"]
          + (if Truthy(Prop(req, "cursor")) then ["cursor"] else [])
          + (if Truthy(Prop(req, "sort")) then ["sort"] else [])
  {
    var base := (if Prop(req, "slug") != Undefined then ["slug"] else [])
                + (if Prop(req, "walletAddress") != Undefined then ["walletAddress"] else [])
                + ["limit", "isBrc20"];
    var kc := if Truthy(Prop(req, "cursor")) then ["cursor"] else [];
    var ks := if Truthy(Prop(req, "sort")) then ["sort"] else [];
    assert base + (kc + ks) == base + kc + ks;
    var body := InscriptionsBody(req);
    assert body == body[..4] + body[4..];
    Json.WireAppend(body[..4], body[4..]);
    KeysAppend(Json.Wire(body[..4]), Json.Wire(body[4..]));
    assert Keys(body[..4]) == Keys(body)[..4];
    BaseWireKeys(body[..4]);
    OptionalWireKeys(req);
  }

  /** Of the four base members, serialisation drops an undefined `slug` or
      `walletAddress` and keeps the defined `limit` and `isBrc20`. */
  lemma BaseWireKeys(base: Object)
    requires Keys(base) == ["slug", "walletAddress", "limit", "isBrc20"]
    requires base[2].1 != Undefined && base[3].1 != Undefined
    ensures Keys(Json.Wire(base))
         == (if base[0].1 != Undefined then ["slug"] else [])
          + (if base[1].1 != Undefined then ["walletAddress"] else [])
          + ["limit", "isBrc20"]
  {
    var s0, s1, mid := [base[0]], [base[1]], base[2..];
    assert base == s0 + s1 + mid;
    var w0, w1 := Json.Wire(s0), Json.Wire(s1);
    assert Json.Wire(base) == w0 + w1 + mid by {
      Json.WireAppend(s0 + s1, mid);
      Json.WireAppend(s0, s1);
      assert Json.Wire(mid) == mid;
    }
    assert Keys(Json.Wire(base)) == Keys(w0) + Keys(w1) + Keys(mid) by {
      KeysAppend(w0 + w1, mid);
      KeysAppend(w0, w1);
    }
    assert base[0].0 == "slug" && base[1].0 == "walletAddress" by {
      assert Keys(base)[0] == base[0].0 && Keys(base)[1] == base[1].0;
    }
    WireKeysOfOne(base[0]);
    WireKeysOfOne(base[1]);
    assert Keys(mid) == ["limit", "isBrc20"] by {
      assert Keys(base)[2..] == Keys(mid);
    }
  }

  /** A single member is serialised unless it is undefined. */
  lemma WireKeysOfOne(f: Field)
    ensures Keys(Json.Wire([f])) == if f.1 != Undefined then [f.0] else []
  {
    assert [f][1..] == [];
  }

  /** The optional members are all truthy, so serialisation keeps them:
      `cursor`, then `sort`, each when truthy in the request. */
  lemma OptionalWireKeys(req: Object)
    ensures Keys(Json.Wire(InscriptionsBody(req)[4..]))
         == (if Truthy(Prop(req, "cursor")) then ["cursor"] else [])
          + (if Truthy(Prop(req, "sort")) then ["sort"] else [])
  {
    var body := InscriptionsBody(req);
    assert Json.Wire(body[4..]) == body[4..];
    assert Keys(body)[4..] == Keys(body[4..]);
    assert ["cursor", "sort"][1..] == ["sort"];
    assert TruthyKeys(req, ["sort"]) == (if Truthy(Prop(req, "sort")) then ["sort"] else []);
  }

  /** Following a page cursor changes the signed message in one way only:
      the member `"cursor":...` appears after the base keys and before any
      `sort` member; the rest of the message stays as it was. */
  lemma CursorAddsOneMember(req: Object, cursor: JsValue, timestamp: string)
    requires !Truthy(Prop(req, "cursor")) && Truthy(cursor)
    ensures var before := PreHash(timestamp, "POST", InscriptionsPath, Some(InscriptionsBody(req)));
            var after := PreHash(timestamp, "POST", InscriptionsPath, Some(InscriptionsBody(Put(req, "cursor", cursor))));
            exists k :: 0 <= k <= |before| && after == before[..k] + "," + Json.Member(("cursor", cursor)) + before[k..]
  {
    var b1 := InscriptionsBody(req);
    var base := b1[..4];
    var tail := b1[4..];
    CursorBodies(req, cursor);
    assert b1 == base + tail;
    assert Json.Wire(base) != [] by {
      Json.WireAppend(base[..2], base[2..]);
      assert base == base[..2] + base[2..];
      assert Json.Wire(base[2..]) == base[2..];
    }
    MessageGainsOneMember(timestamp, "POST", InscriptionsPath, base, ("cursor", cursor), tail);
  }

  /** Inserting a defined property into a body, after a part that serialises
      to at least one member, inserts a comma and that member into the
      pre-hash message and changes nothing else. */
  lemma MessageGainsOneMember(timestamp: string, verb: string, path: string, base: Object, f: Field, tail: Object)
    requires Json.Wire(base) != [] && f.1 != Undefined
    requires forall i :: 0 <= i < |tail| ==> tail[i].1 != Undefined
    ensures var before := PreHash(timestamp, verb, path, Some(base + tail));
            var after := PreHash(timestamp, verb, path, Some(base + [f] + tail));
            exists k :: 0 <= k <= |before| && after == before[..k] + "," + Json.Member(f) + before[k..]
  {
    var wb := Json.Wire(base);
    var b1 := base + tail;
    var b2 := base + [f] + tail;
    assert Json.Wire(b1) == wb + tail by {
      Json.WireAppend(base, tail);
    }
    assert Json.Wire(b2) == wb + [f] + tail by {
      Json.WireAppend(base + [f], tail);
      Json.WireAppend(base, [f]);
      assert Json.Wire([f]) == [f];
    }
    Json.MembersInsert(wb, f, tail);
    var mb := Json.Members(wb);
    var tailText := if tail == [] then "" else "," + Json.Members(tail);
    var mf := Json.Member(f);
    var lead := timestamp + verb + path;
    assert PreHash(timestamp, verb, path, Some(b1)) == lead + ("{" + (mb + tailText) + "}");
    assert PreHash(timestamp, verb, path, Some(b2)) == lead + ("{" + (mb + "," + mf + tailText) + "}");
    Inserted(lead, mb, mf, tailText);
  }

  /** Text insertion, stated over plain strings. */
  lemma Inserted(lead: string, mb: string, mf: string, tailText: string)
    ensures var before := lead + ("{" + (mb + tailText) + "}");
            var after := lead + ("{" + (mb + "," + mf + tailText) + "}");
            exists k :: 0 <= k <= |before| && after == before[..k] + "," + mf + before[k..]
  {
    var before := lead + ("{" + (mb + tailText) + "}");
    var after := lead + ("{" + (mb + "," + mf + tailText) + "}");
    var k := |lead| + 1 + |mb|;
    assert before[..k] == lead + "{" + mb;
    assert before[k..] == tailText + "}";
    assert after == before[..k] + "," + mf + before[k..];
  }

  /** With a truthy cursor added to a request that had none, the body gains
      the cursor property right after the four base properties. */
  lemma CursorBodies(req: Object, cursor: JsValue)
    requires !Truthy(Prop(req, "cursor")) && Truthy(cursor)
    ensures InscriptionsBody(Put(req, "cursor", cursor))
         == InscriptionsBody(req)[..4] + [("cursor", cursor)] + InscriptionsBody(req)[4..]
  {
    CursorKeepsBase(req, cursor);
    CursorSpread(req, cursor);
    assert InscriptionsBody(req)[4..] == SpreadTruthy(req, ["cursor", "sort"]);
  }

  /** Setting the cursor leaves the four base properties of the body as they were. */
  lemma CursorKeepsBase(req: Object, cursor: JsValue)
    ensures InscriptionsBody(Put(req, "cursor", cursor))
         == InscriptionsBody(req)[..4] + SpreadTruthy(Put(req, "cursor", cursor), ["cursor", "sort"])
  {
    var req2 := Put(req, "cursor", cursor);
    assert Prop(req2, "slug") == Prop(req, "slug");
    assert Prop(req2, "walletAddress") == Prop(req, "walletAddress");
    assert Prop(req2, "limit") == Prop(req, "limit");
    assert Prop(req2, "isBrc20") == Prop(req, "isBrc20");
  }

  /** A truthy cursor set on a request without one adds its property in front
      of the optional ones. */
  lemma CursorSpread(req: Object, cursor: JsValue)
    requires !Truthy(Prop(req, "cursor")) && Truthy(cursor)
    ensures SpreadTruthy(Put(req, "cursor", cursor), ["cursor", "sort"])
         == [("cursor", cursor)] + SpreadTruthy(req, ["cursor", "sort"])
  {
    var req2 := Put(req, "cursor", cursor);
    assert ["cursor", "sort"][1..] == ["sort"];
    assert Prop(req2, "sort") == Prop(req, "sort");
    assert SpreadTruthy(req2, ["sort"]) == SpreadTruthy(req, ["sort"]) by {
      assert ["sort"][1..] == [];
    }
  }

  // ---------------------------------------------------------------- trade history

  /** The body of the trade-history call. */
  function TradeHistoryBody(req: Object): (body: Object)
    ensures |body| >= 4 && Keys(body)[..4] == ["slug", "limit", "sort", "isBrc20"]
    ensures Keys(body)[4..] == TruthyKeys(req, ["cursor", "tradeWalletAddress", "type", "orderSource"])
    ensures body[0].1 == Prop(req, "slug")
    ensures Truthy(body[1].1) && Truthy(body[2].1)
    ensures Truthy(Prop(req, "limit")) ==> body[1].1 == Prop(req, "limit")
    ensures !Truthy(Prop(req, "limit")) ==> body[1].1 == Str("10")
    ensures Truthy(Prop(req, "sort")) ==> body[2].1 == Prop(req, "sort")
    ensures !Truthy(Prop(req, "sort")) ==> body[2].1 == Str("desc")
    ensures !Nullish(body[3].1)
    ensures !Nullish(Prop(req, "isBrc20")) ==> body[3].1 == Prop(req, "isBrc20")
    ensures Nullish(Prop(req, "isBrc20")) ==> body[3].1 == Bool(true)
    ensures forall i :: 4 <= i < |body| ==> Truthy(body[i].1) && body[i].1 == Prop(req, body[i].0)
  {
    var base := [ ("slug", Prop(req, "slug")),
                  ("limit", Or(Prop(req, "limit"), Str("10"))),
                  ("sort", Or(Prop(req, "sort"), Str("desc"))),
                  ("isBrc20", Coalesce(Prop(req, "isBrc20"), Bool(true))) ];
    var optional := SpreadTruthy(req, ["cursor", "tradeWalletAddress", "type", "orderSource"]);
    assert Keys(base) == ["slug", "limit", "sort", "isBrc20"];
    KeysAppend(base, optional);
    assert (base + optional)[4..] == optional;
    base + optional
  }

  /** The trade-history route's error reply: always status 500, the
      exchange's code or the number 50026, its message or a fixed one. */
  function TradeHistoryFailureReply<P>(f: Failure): (r: Reply<P>)
    ensures r.status == 500
    ensures r.body.Fields? && Keys(r.body.fields) == ["code", "msg", "data"]
    ensures Get(r.body.fields, "data") == Some(Null)
    ensures Truthy(Prop(r.body.fields, "code")) && Truthy(Prop(r.body.fields, "msg"))
    ensures Truthy(UpstreamCode(f)) ==> Get(r.body.fields, "code") == Some(UpstreamCode(f))
    ensures !Truthy(UpstreamCode(f)) ==> Get(r.body.fields, "code") == Some(Num(50026))
    ensures Truthy(UpstreamMsg(f)) ==> Get(r.body.fields, "msg") == Some(UpstreamMsg(f))
    ensures !Truthy(UpstreamMsg(f)) ==> Get(r.body.fields, "msg") == Some(Str(TradeHistoryFailed))
  {
    Reply(500, Fields(ErrorEnvelope(Or(UpstreamCode(f), Num(50026)), Or(UpstreamMsg(f), Str(TradeHistoryFailed)))))
  }

  /** POST /api/trade-history */
  function HandleTradeHistory<P>(req: Object, iso: string, cred: Credentials,
                                 hmacB64: Mac, upstream: Outbound -> Outcome<P>): (x: Exchange<P>)
    ensures Authentic(x.sent, cred, hmacB64)
    ensures x.sent.verb == "POST" && x.sent.url == BaseUrl + TradeHistoryPath
    ensures x.sent.body == Some(TradeHistoryBody(req))
    ensures Get(x.sent.headers, AccessTimestamp) == Some(Timestamp(iso))
    ensures upstream(x.sent).Delivered? ==> x.reply == Reply(200, Relayed(upstream(x.sent).payload))
    ensures upstream(x.sent).Failed? ==> x.reply == TradeHistoryFailureReply(upstream(x.sent).failure)
  {
    var sent := SignedCall("POST", TradeHistoryPath, Some(TradeHistoryBody(req)), iso, cred, hmacB64);
    match upstream(sent)
    case Delivered(p) => Exchange(sent, Reply(200, Relayed(p)))
    case Failed(f) => Exchange(sent, TradeHistoryFailureReply(f))
  }

  /** The two POST routes translate the same failure differently: the
      trade-history route never mirrors the exchange's status, and its
      fallback code is a number where the inscriptions route's is a string. */
  lemma FailureRepliesDiverge<P>(status: int, message: string)
    requires status != 0 && status != 500
    ensures var f := Failure(Some(ErrorResponse(status, Undefined, Undefined)), message);
            var ri: Reply<P> := InscriptionsFailureReply(f);
            var rt: Reply<P> := TradeHistoryFailureReply(f);
            ri.status == status && rt.status == 500
            && Prop(ri.body.fields, "code") == Str("50026") && Prop(rt.body.fields, "code") == Num(50026)
  {
  }
}
