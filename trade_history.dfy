/** The "Ordinals Trade History" form: the short form of an address it
    displays, the sort order it offers, the sparse parameter object it posts
    to the proxy, and the state it keeps. */
module TradeHistory {
  import opened JsValues
  import opened JsText
  import opened Service

  const SlugRequired := "Slug is required"
  const FetchFailed := "Error fetching trade history"

  /** The two options of the sort select; no other value can be chosen. */
  datatype SortOrder = Desc | Asc

  /** The option value posted for each sort order. */
  function SortText(order: SortOrder): (t: string)
    ensures t == "desc" || t == "asc"
    ensures order.Desc? <==> t == "desc"
  {
    match order
    case Desc => "desc"
    case Asc => "asc"
  }

  datatype TradeActivity = TradeActivity(
    amount: string, fromAddress: string, inscriptionId: string, inscriptionNumber: string,
    isBrc20: bool, price: string, slug: string, timestamp: int, toAddress: string,
    unitPrice: string, orderSource: int, orderSourceName: string, activityType: string)

  datatype TradePage = TradePage(cursor: string, data: seq<TradeActivity>)

  datatype TradeHistoryResponse = TradeHistoryResponse(msg: string, code: int, data: TradePage)

  /** The number of characters shown at each end of an address. */
  const Shown := 6

  /** `address.slice(0, 6)`: at most the first six characters. */
  function Head(address: string): (h: string)
    ensures |h| == if |address| < Shown then |address| else Shown
    ensures h == address[..|h|]
  {
    address[..if |address| < Shown then |address| else Shown]
  }

  /** `address.slice(-6)`: the last six characters, or all of them when
      there are fewer (a negative start below zero counts from zero). */
  function Tail(address: string): (t: string)
    ensures |t| == if |address| < Shown then |address| else Shown
    ensures t == address[|address| - |t|..]
  {
    address[if |address| - Shown < 0 then 0 else |address| - Shown..]
  }

  /** `formatAddress`: the head of the address, an ellipsis, its tail. */
  function FormatAddress(address: string): (r: string)
    ensures |r| == 2 * |Head(address)| + 3
    ensures r[..|Head(address)|] == address[..|Head(address)|]
    ensures r[|Head(address)|..|Head(address)| + 3] == "..."
    ensures r[|Head(address)| + 3..] == address[|address| - |Head(address)|..]
  {
    Head(address) + "..." + Tail(address)
  }

  /** An address of six characters or more is shown as fifteen: its first
      six, an ellipsis, its last six. */
  lemma FormatAddressOfLong(address: string)
    requires |address| >= Shown
    ensures var r := FormatAddress(address);
            |r| == 15 && r[..6] == address[..6] && r[6..9] == "..." && r[9..] == address[|address| - 6..]
  {
  }

  /** From twelve characters on, the two ends shown do not overlap: the
      address is the shown head, the hidden middle and the shown tail. */
  lemma FormatAddressHidesMiddle(address: string)
    requires |address| >= 2 * Shown
    ensures var r := FormatAddress(address);
            address == r[..6] + address[6..|address| - 6] + r[9..]
  {
    var r := FormatAddress(address);
    assert r[..6] == address[..6];
    assert r[9..] == address[|address| - 6..];
    assert address == address[..6] + address[6..|address| - 6] + address[|address| - 6..];
  }

  /** A shorter address is shown whole on both sides of the ellipsis. */
  lemma FormatAddressOfShort(address: string)
    requires |address| < Shown
    ensures FormatAddress(address) == address + "..." + address
  {
    assert Head(address) == address;
    assert Tail(address) == address;
  }

  /** The parameters posted to the proxy: the four fixed keys, then
      `tradeWalletAddress` and `type` only when they are non-empty. */
  function TradeParams(slug: string, limit: string, sort: SortOrder, isBrc20: bool,
                       tradeWalletAddress: string, tradeType: string): (p: Object)
    ensures Keys(p) == ["slug", "limit", "sort", "isBrc20"]
                     + (if tradeWalletAddress != "" then ["tradeWalletAddress"] else [])
                     + (if tradeType != "" then ["type"] else [])
  {
    var base := [ ("slug", Str(slug)), ("limit", Str(limit)),
                  ("sort", Str(SortText(sort))), ("isBrc20", Bool(isBrc20)) ];
    base + SpreadIfTruthy("tradeWalletAddress", Str(tradeWalletAddress)) + SpreadIfTruthy("type", Str(tradeType))
  }

  /** What the proxy reads from the four fixed parameters: each input as
      given, and the sort as one of its two texts. */
  lemma TradeParamsReadFixed(slug: string, limit: string, sort: SortOrder, isBrc20: bool,
                             tradeWalletAddress: string, tradeType: string)
    ensures var p := TradeParams(slug, limit, sort, isBrc20, tradeWalletAddress, tradeType);
            && Prop(p, "slug") == Str(slug) && Prop(p, "limit") == Str(limit)
            && (Prop(p, "sort") == Str("desc") || Prop(p, "sort") == Str("asc"))
            && Prop(p, "sort") == Str(SortText(sort)) && Prop(p, "isBrc20") == Bool(isBrc20)
  {
    var p := TradeParams(slug, limit, sort, isBrc20, tradeWalletAddress, tradeType);
    assert p[0].0 == "slug" && p[1].0 == "limit" && p[2].0 == "sort" && p[3].0 == "isBrc20";
    GetFirst(p, 1);
    GetFirst(p, 2);
    GetFirst(p, 3);
  }

  /** What the proxy reads from the optional parameters: the wallet address
      and the type as given, and `undefined` for either when it is empty. */
  lemma TradeParamsReadOptional(slug: string, limit: string, sort: SortOrder, isBrc20: bool,
                                tradeWalletAddress: string, tradeType: string)
    ensures var p := TradeParams(slug, limit, sort, isBrc20, tradeWalletAddress, tradeType);
            && Prop(p, "tradeWalletAddress") == (if tradeWalletAddress != "" then Str(tradeWalletAddress) else Undefined)
            && Prop(p, "type") == (if tradeType != "" then Str(tradeType) else Undefined)
  {
    var p := TradeParams(slug, limit, sort, isBrc20, tradeWalletAddress, tradeType);
    var ks := Keys(p);
    assert Prop(p, "tradeWalletAddress") == (if tradeWalletAddress != "" then Str(tradeWalletAddress) else Undefined) by {
      if tradeWalletAddress != "" {
        assert p[4].0 == "tradeWalletAddress";
        GetFirst(p, 4);
      } else {
        assert "tradeWalletAddress" !in ks;
      }
    }
    if tradeType != "" {
      assert p[|p| - 1].0 == "type";
      GetFirst(p, |p| - 1);
    } else {
      assert "type" !in ks;
    }
  }

  class TradeHistoryForm {
    var slug: string
    var limit: string
    var sort: SortOrder
    var isBrc20: bool
    var tradeWalletAddress: string
    var tradeType: string
    var result: Option<TradeHistoryResponse>
    var error: Option<string>
    var loading: bool

    /** The form as it first renders. */
    constructor ()
      ensures slug == "fractal-pepe-1" && limit == "10" && sort == Desc && !isBrc20
      ensures tradeWalletAddress == "" && tradeType == "SALE"
      ensures result == None && error == None && !loading
    {
      slug := "fractal-pepe-1";
      limit := "10";
      sort := Desc;
      isBrc20 := false;
      tradeWalletAddress := "";
      tradeType := "SALE";
      result := None;
      error := None;
      loading := false;
    }

    /** A blank slug stops the fetch with an error before it begins;
      otherwise the parameters are posted through `service` and the
      response or the error is recorded. Returns the parameters posted. */
    method FetchTradeHistory(service: Object -> ServiceOutcome<TradeHistoryResponse>) returns (request: Option<Object>)
      modifies this`error, this`loading, this`result
      ensures AllWhitespace(slug) ==>
                request == None && error == Some(SlugRequired)
                && loading == old(loading) && result == old(result)
      ensures !AllWhitespace(slug) ==>
                request == Some(TradeParams(slug, limit, sort, isBrc20, tradeWalletAddress, tradeType)) && !loading
      ensures request.Some? && service(request.value).Returned? ==>
                result == Some(service(request.value).response) && error == None
      ensures request.Some? && service(request.value).Threw? ==>
                result == old(result) && error == Some(ErrorText(service(request.value).thrown, FetchFailed))
    {
      if Trim(slug) == "" {
        error := Some(SlugRequired);
        return None;
      }
      loading := true;
      error := None;
      var params := TradeParams(slug, limit, sort, isBrc20, tradeWalletAddress, tradeType);
      request := Some(params);
      var outcome := service(params);
      RecordOutcome(outcome);
      loading := false;
    }

    /** The `try`/`catch` around the service call: a response is stored as
      the result, a thrown value becomes the error text. */
    method RecordOutcome(outcome: ServiceOutcome<TradeHistoryResponse>)
      modifies this`error, this`result
      ensures outcome.Returned? ==> result == Some(outcome.response) && error == old(error)
      ensures outcome.Threw? ==> result == old(result) && error == Some(ErrorText(outcome.thrown, FetchFailed))
    {
      match outcome {
        case Returned(response) =>
          result := Some(response);
        case Threw(thrown) =>
          error := Some(ErrorText(thrown, FetchFailed));
      }
    }
  }
}
