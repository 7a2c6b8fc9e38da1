/** How the two forms' parameter objects fare in the proxy: the omission
    rule on each side agrees, so what a form posts is the body the proxy
    signs and sends, except for an empty trade-history limit, which the
    proxy replaces by its default. */
module ClientServer {
  import opened JsValues
  import Proxy
  import RetrieveInscriptions
  import TradeHistory

  /** With a non-empty limit, the proxy's inscriptions body is the form's
      parameter object itself: no default applies and no key is added,
      dropped or moved. */
  lemma InscriptionParamsSentAsIs(slug: string, walletAddress: string, limit: string, isBrc20: bool,
                                  cursor: string, sort: string)
    requires limit != ""
    ensures var p := RetrieveInscriptions.InscriptionParams(slug, walletAddress, limit, isBrc20, cursor, sort);
            Proxy.InscriptionsBody(p) == p
  {
    var p := RetrieveInscriptions.InscriptionParams(slug, walletAddress, limit, isBrc20, cursor, sort);
    RetrieveInscriptions.InscriptionParamsReadFixed(slug, walletAddress, limit, isBrc20, cursor, sort);
    RetrieveInscriptions.InscriptionParamsReadOptional(slug, walletAddress, limit, isBrc20, cursor, sort);
    var base := [ ("slug", Str(slug)), ("walletAddress", Str(walletAddress)),
                  ("limit", Str(limit)), ("isBrc20", Bool(isBrc20)) ];
    var tail := SpreadIfTruthy("cursor", Str(cursor)) + SpreadIfTruthy("sort", Str(sort));
    assert p == base + tail;
    assert SpreadTruthy(p, ["sort"]) == SpreadIfTruthy("sort", Str(sort)) by {
      assert ["sort"][1..] == [];
    }
    assert SpreadTruthy(p, ["cursor", "sort"]) == tail by {
      assert ["cursor", "sort"][1..] == ["sort"];
    }
  }

  /** Whatever passes `validateInputs` reaches the exchange exactly as the
      form built it. */
  lemma ValidatedParamsSentAsIs(slug: string, walletAddress: string, limit: string, isBrc20: bool,
                                cursor: string, sort: string)
    requires RetrieveInscriptions.ValidationError(slug, walletAddress, limit) == None
    ensures var p := RetrieveInscriptions.InscriptionParams(slug, walletAddress, limit, isBrc20, cursor, sort);
            Proxy.InscriptionsBody(p) == p
  {
    InscriptionParamsSentAsIs(slug, walletAddress, limit, isBrc20, cursor, sort);
  }

  /** The trade-history form never sends a `cursor` or an `orderSource`, so
      the proxy leaves both out of its body. */
  lemma TradeParamsLackCursor(slug: string, limit: string, sort: TradeHistory.SortOrder, isBrc20: bool,
                              tradeWalletAddress: string, tradeType: string)
    ensures var p := TradeHistory.TradeParams(slug, limit, sort, isBrc20, tradeWalletAddress, tradeType);
            Prop(p, "cursor") == Undefined && Prop(p, "orderSource") == Undefined
  {
    var p := TradeHistory.TradeParams(slug, limit, sort, isBrc20, tradeWalletAddress, tradeType);
    assert "cursor" !in Keys(p);
    assert "orderSource" !in Keys(p);
  }

  /** The proxy's optional trade-history keys, read from an object without
      `cursor` or `orderSource`, are the wallet address and the type when
      non-empty. */
  lemma TradeOptionalSpread(p: Object, tradeWalletAddress: string, tradeType: string)
    requires Prop(p, "cursor") == Undefined && Prop(p, "orderSource") == Undefined
    requires Prop(p, "tradeWalletAddress") == (if tradeWalletAddress != "" then Str(tradeWalletAddress) else Undefined)
    requires Prop(p, "type") == (if tradeType != "" then Str(tradeType) else Undefined)
    ensures SpreadTruthy(p, ["cursor", "tradeWalletAddress", "type", "orderSource"])
            == SpreadIfTruthy("tradeWalletAddress", Str(tradeWalletAddress)) + SpreadIfTruthy("type", Str(tradeType))
  {
    var tail := SpreadIfTruthy("tradeWalletAddress", Str(tradeWalletAddress)) + SpreadIfTruthy("type", Str(tradeType));
    assert SpreadTruthy(p, ["orderSource"]) == [] by {
      assert ["orderSource"][1..] == [];
    }
    assert SpreadTruthy(p, ["type", "orderSource"]) == SpreadIfTruthy("type", Str(tradeType)) by {
      assert ["type", "orderSource"][1..] == ["orderSource"];
    }
    assert SpreadTruthy(p, ["tradeWalletAddress", "type", "orderSource"]) == tail by {
      assert ["tradeWalletAddress", "type", "orderSource"][1..] == ["type", "orderSource"];
    }
    assert ["cursor", "tradeWalletAddress", "type", "orderSource"][1..] == ["tradeWalletAddress", "type", "orderSource"];
  }

  /** The trade-history form checks only the slug; the proxy's body is the
      form's parameter object with an empty limit read as `"10"`, and
      otherwise unchanged. */
  lemma TradeParamsSent(slug: string, limit: string, sort: TradeHistory.SortOrder, isBrc20: bool,
                        tradeWalletAddress: string, tradeType: string)
    ensures var p := TradeHistory.TradeParams(slug, limit, sort, isBrc20, tradeWalletAddress, tradeType);
            Proxy.TradeHistoryBody(p)
            == TradeHistory.TradeParams(slug, if limit != "" then limit else "10", sort, isBrc20, tradeWalletAddress, tradeType)
  {
    var p := TradeHistory.TradeParams(slug, limit, sort, isBrc20, tradeWalletAddress, tradeType);
    var tail := SpreadIfTruthy("tradeWalletAddress", Str(tradeWalletAddress)) + SpreadIfTruthy("type", Str(tradeType));
    var effective := if limit != "" then limit else "10";
    var sent := [ ("slug", Str(slug)), ("limit", Str(effective)),
                  ("sort", Str(TradeHistory.SortText(sort))), ("isBrc20", Bool(isBrc20)) ];
    var keys := ["cursor", "tradeWalletAddress", "type", "orderSource"];
    var read := [ ("slug", Prop(p, "slug")), ("limit", Or(Prop(p, "limit"), Str("10"))),
                  ("sort", Or(Prop(p, "sort"), Str("desc"))), ("isBrc20", Coalesce(Prop(p, "isBrc20"), Bool(true))) ];
    assert Proxy.TradeHistoryBody(p) == read + SpreadTruthy(p, keys);
    assert read == sent by {
      TradeHistory.TradeParamsReadFixed(slug, limit, sort, isBrc20, tradeWalletAddress, tradeType);
    }
    assert SpreadTruthy(p, keys) == tail by {
      TradeHistory.TradeParamsReadOptional(slug, limit, sort, isBrc20, tradeWalletAddress, tradeType);
      TradeParamsLackCursor(slug, limit, sort, isBrc20, tradeWalletAddress, tradeType);
      TradeOptionalSpread(p, tradeWalletAddress, tradeType);
    }
    assert sent + tail == TradeHistory.TradeParams(slug, effective, sort, isBrc20, tradeWalletAddress, tradeType);
  }
}
