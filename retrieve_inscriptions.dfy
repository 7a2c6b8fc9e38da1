/** The "Retrieve Valid Inscriptions" form: its input checks, the sparse
    parameter object it posts to the proxy, and the state it keeps (inputs,
    last result, error text, loading flag). */
module RetrieveInscriptions {
  import opened JsValues
  import opened JsText
  import opened Service

  const SlugRequired := "Slug is required"
  const WalletRequired := "Wallet address is required"
  const LimitOutOfRange := "Limit must be between 1 and 100"
  const FetchFailed := "Error fetching inscriptions data"

  datatype InscriptionInfo = InscriptionInfo(
    inscriptionId: string, nftId: string, amount: string, ticker: Option<string>, tickerId: Option<string>)

  datatype InscriptionData = InscriptionData(cursor: string, inscriptionInfos: seq<InscriptionInfo>)

  datatype ApiResponse = ApiResponse(code: int, msg: string, data: Option<InscriptionData>)

  /** `parseInt(limit)` is a number from 1 to 100: not `NaN`, not below 1,
      not above 100. */
  predicate LimitInRange(limit: string)
    ensures LimitInRange(limit) ==> !AllWhitespace(limit)
  {
    match ParseInt(limit)
    case None => false
    case Some(n) => 1 <= n <= 100
  }

  /** The message of the first check that fails, or none when all pass. */
  function ValidationError(slug: string, walletAddress: string, limit: string): (e: Option<string>)
    ensures e.Some? ==> e.value == SlugRequired || e.value == WalletRequired || e.value == LimitOutOfRange
  {
    if Trim(slug) == "" then Some(SlugRequired)
    else if Trim(walletAddress) == "" then Some(WalletRequired)
    else if !LimitInRange(limit) then Some(LimitOutOfRange)
    else None
  }

  /** The checks run in a fixed order and the first failure wins: a blank
      slug, then a blank wallet address, then a limit out of range; the form
      is valid exactly when all three pass. */
  lemma ValidationOrder(slug: string, walletAddress: string, limit: string)
    ensures var e := ValidationError(slug, walletAddress, limit);
            && (AllWhitespace(slug) ==> e == Some(SlugRequired))
            && (!AllWhitespace(slug) && AllWhitespace(walletAddress) ==> e == Some(WalletRequired))
            && (!AllWhitespace(slug) && !AllWhitespace(walletAddress) && !LimitInRange(limit)
                ==> e == Some(LimitOutOfRange))
            && (e == None <==> !AllWhitespace(slug) && !AllWhitespace(walletAddress) && LimitInRange(limit))
  {
    assert Trim(slug) == "" <==> AllWhitespace(slug);
    assert Trim(walletAddress) == "" <==> AllWhitespace(walletAddress);
  }

  /** A limit written in decimal passes the limit check exactly when it is
      between 1 and 100. */
  lemma DecimalLimitAccepted(n: nat)
    ensures LimitInRange(NatText(n)) <==> 1 <= n <= 100
  {
    ParseIntOfNatText(n);
  }

  /** The parameters posted to the proxy: the four fixed keys, then `cursor`
      and `sort` only when they are non-empty. */
  function InscriptionParams(slug: string, walletAddress: string, limit: string, isBrc20: bool,
                             cursor: string, sort: string): (p: Object)
    ensures Keys(p) == ["slug", "walletAddress", "limit", "isBrc20"]
                     + (if cursor != "" then ["cursor"] else [])
                     + (if sort != "" then ["sort"] else [])
    ensures forall i :: 0 <= i < |p| ==> Prop(p, p[i].0) == p[i].1
  {
    var base := [ ("slug", Str(slug)), ("walletAddress", Str(walletAddress)),
                  ("limit", Str(limit)), ("isBrc20", Bool(isBrc20)) ];
    var p := base + SpreadIfTruthy("cursor", Str(cursor)) + SpreadIfTruthy("sort", Str(sort));
    assert Keys(p) == ["slug", "walletAddress", "limit", "isBrc20"]
                    + (if cursor != "" then ["cursor"] else [])
                    + (if sort != "" then ["sort"] else []);
    assert forall i :: 0 <= i < |p| ==> Prop(p, p[i].0) == p[i].1 by {
      forall i | 0 <= i < |p| ensures Prop(p, p[i].0) == p[i].1 {
        GetFirst(p, i);
      }
    }
    p
  }

  /** What the proxy reads from the four fixed parameters: each input as
      given. */
  lemma InscriptionParamsReadFixed(slug: string, walletAddress: string, limit: string, isBrc20: bool,
                                   cursor: string, sort: string)
    ensures var p := InscriptionParams(slug, walletAddress, limit, isBrc20, cursor, sort);
            && Prop(p, "slug") == Str(slug) && Prop(p, "walletAddress") == Str(walletAddress)
            && Prop(p, "limit") == Str(limit) && Prop(p, "isBrc20") == Bool(isBrc20)
  {
    var p := InscriptionParams(slug, walletAddress, limit, isBrc20, cursor, sort);
    assert p[0].0 == "slug" && p[1].0 == "walletAddress" && p[2].0 == "limit" && p[3].0 == "isBrc20";
  }

  /** What the proxy reads from the optional parameters: the cursor and the
      sort as given, and `undefined` for either when it is empty. */
  lemma InscriptionParamsReadOptional(slug: string, walletAddress: string, limit: string, isBrc20: bool,
                                      cursor: string, sort: string)
    ensures var p := InscriptionParams(slug, walletAddress, limit, isBrc20, cursor, sort);
            && Prop(p, "cursor") == (if cursor != "" then Str(cursor) else Undefined)
            && Prop(p, "sort") == (if sort != "" then Str(sort) else Undefined)
  {
    var p := InscriptionParams(slug, walletAddress, limit, isBrc20, cursor, sort);
    var ks := Keys(p);
    assert Prop(p, "cursor") == (if cursor != "" then Str(cursor) else Undefined) by {
      if cursor != "" {
        assert p[4].0 == "cursor";
      } else {
        assert "cursor" !in ks;
      }
    }
    if sort != "" {
      assert p[|p| - 1].0 == "sort";
    } else {
      assert "sort" !in ks;
    }
  }

  /** `result?.data?.cursor`, with "" when there is none. */
  function NextCursor(result: Option<ApiResponse>): (cursor: string)
    ensures result.Some? && result.value.data.Some? ==> cursor == result.value.data.value.cursor
    ensures result.None? || result.value.data.None? ==> cursor == ""
  {
    if result.Some? && result.value.data.Some? then result.value.data.value.cursor else ""
  }

  class InscriptionsForm {
    var slug: string
    var walletAddress: string
    var limit: string
    var isBrc20: bool
    var cursor: string
    var sort: string
    var result: Option<ApiResponse>
    var error: Option<string>
    var loading: bool

    /** The form as it first renders. */
    constructor ()
      ensures slug == "fractal-pepe-1"
      ensures walletAddress == "bc1p8gqcyljmuqa5rqaqyfdxv37ta47nzr2n2cr8sypmtvv0ylppn55sj3euxe"
      ensures limit == "20" && !isBrc20 && cursor == "" && sort == ""
      ensures result == None && error == None && !loading
    {
      slug := "fractal-pepe-1";
      walletAddress := "bc1p8gqcyljmuqa5rqaqyfdxv37ta47nzr2n2cr8sypmtvv0ylppn55sj3euxe";
      limit := "20";
      isBrc20 := false;
      cursor := "";
      sort := "";
      result := None;
      error := None;
      loading := false;
    }

    /** Runs the three checks in order; the first failure sets the error
      text, and success leaves the error text alone. */
    method ValidateInputs() returns (valid: bool)
      modifies this`error
      ensures valid <==> ValidationError(slug, walletAddress, limit) == None
      ensures valid ==> error == old(error)
      ensures !valid ==> error == ValidationError(slug, walletAddress, limit)
    {
      ghost var expected := ValidationError(slug, walletAddress, limit);
      if Trim(slug) == "" {
        error := Some(SlugRequired);
        assert error == expected;
        return false;
      }
      if Trim(walletAddress) == "" {
        error := Some(WalletRequired);
        assert error == expected;
        return false;
      }
      var limitNum := ParseInt(limit);
      if limitNum.None? || limitNum.value < 1 || limitNum.value > 100 {
        error := Some(LimitOutOfRange);
        assert error == expected;
        return false;
      }
      assert expected == None;
      return true;
    }

    /** Validates, then posts the parameters through `service` and records
      the response or the error. Returns the parameters posted, or none when
      validation stopped the call before it began. */
    method FetchValidInscriptions(service: Object -> ServiceOutcome<ApiResponse>) returns (request: Option<Object>)
      modifies this`error, this`loading, this`result
      ensures ValidationError(slug, walletAddress, limit).Some? ==>
                request == None && error == ValidationError(slug, walletAddress, limit)
                && loading == old(loading) && result == old(result)
      ensures ValidationError(slug, walletAddress, limit).None? ==>
                request == Some(InscriptionParams(slug, walletAddress, limit, isBrc20, cursor, sort)) && !loading
      ensures request.Some? && service(request.value).Returned? ==>
                result == Some(service(request.value).response) && error == None
      ensures request.Some? && service(request.value).Threw? ==>
                result == old(result) && error == Some(ErrorText(service(request.value).thrown, FetchFailed))
    {
      ghost var expected := ValidationError(slug, walletAddress, limit);
      var valid := ValidateInputs();
      if !valid {
        assert error == expected && expected.Some?;
        return None;
      }
      assert expected == None;
      loading := true;
      error := None;
      var params := InscriptionParams(slug, walletAddress, limit, isBrc20, cursor, sort);
      request := Some(params);
      var outcome := service(params);
      RecordOutcome(outcome);
      loading := false;
    }

    /** The `try`/`catch` around the service call: a response is stored as
      the result, a thrown value becomes the error text. */
    method RecordOutcome(outcome: ServiceOutcome<ApiResponse>)
      modifies this`error, this`result
      ensures outcome.Returned? ==> result == Some(outcome.response) && error == old(error)
      ensures outcome.Threw? ==> result == old(result) && error == Some(ErrorText(outcome.thrown, FetchFailed))
    {
      match outcome {
        case Returned(response) =>
          result := Some(response);
        case Threw(thrown) =>
          error := Some(ErrorText(thrown, FetchFailed));
      }
    }

    /** Moves to the next page when the last result carries a cursor: stores
      it and reports that a new fetch is started; otherwise does nothing. */
    method HandleNextPage() returns (refetch: bool)
      modifies this`cursor
      ensures refetch <==> NextCursor(result) != ""
      ensures refetch ==> cursor == NextCursor(result)
      ensures !refetch ==> cursor == old(cursor)
    {
      if result.Some? && result.value.data.Some? && result.value.data.value.cursor != "" {
        cursor := result.value.data.value.cursor;
        return true;
      }
      return false;
    }
  }
}
