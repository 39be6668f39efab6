/** The portfolio service: the value of a user's assets at their latest known
    prices, and the price history of one asset. Both read the `assets` and the
    daily price tables, passed in as their stored rows. */
module Portfolio {
  import opened Common
  import opened Seqs
  import opened Schema

  /** The response body `{ totalValue }`. */
  datatype Valuation = Valuation(totalValue: int)

  const ValueCount := Increment("portfolio.calculate_portfolio_value.count")
  const ValueSuccess := Increment("portfolio.calculate_portfolio_value.success")
  const ValueFailure := Increment("portfolio.calculate_portfolio_value.failure")
  const HistoryCount := Increment("portfolio.get_asset_history.count")
  const HistorySuccess := Increment("portfolio.get_asset_history.success")
  const HistoryFailure := Increment("portfolio.get_asset_history.failure")

  const ValueFailedMessage := "Failed to calculate portfolio value"
  const HistoryFailedMessage := "Failed to fetch asset history"

  /** The record `where('asset_id', '=', assetId).orderBy('date', 'desc').limit(1)`
      returns: a row of that asset with the greatest date, or none when the asset
      has no price row. Among rows sharing the greatest date the query leaves the
      choice open; this model takes the first one stored. */
  function LatestPrice(prices: seq<PriceRow>, assetId: string): (latest: Option<PriceRow>)
    ensures latest.Some? ==> latest.value.assetId == assetId
  {
    if prices == [] then None
    else
      var rest := LatestPrice(prices[1..], assetId);
      if prices[0].assetId != assetId then rest
      else if rest.Some? && rest.value.date > prices[0].date then rest
      else Some(prices[0])
  }

  /** The lookup finds nothing exactly when the asset has no price row, and
      otherwise a row of that asset dated no earlier than any other row of it. */
  lemma {:induction false} LatestPriceIsLatest(prices: seq<PriceRow>, assetId: string)
    ensures var latest := LatestPrice(prices, assetId);
            && (latest.None? <==> forall k :: 0 <= k < |prices| ==> prices[k].assetId != assetId)
            && (latest.Some? ==> latest.value in prices && latest.value.assetId == assetId)
            && (latest.Some? ==>
                  forall k :: 0 <= k < |prices| && prices[k].assetId == assetId ==> prices[k].date <= latest.value.date)
  {
    if prices != [] {
      LatestPriceIsLatest(prices[1..], assetId);
      assert forall k :: 1 <= k < |prices| ==> prices[k] == prices[1..][k - 1];
    }
  }

  /** `quantity || 1`: a null, absent or zero quantity counts as one unit. */
  function Multiplier(quantity: Option<int>): int
  {
    if quantity.Some? && quantity.value != 0 then quantity.value else 1
  }

  /** What a holding is worth at a price: `price * (quantity || 1)`. */
  function Worth(price: int, quantity: Option<int>): int
  {
    price * Multiplier(quantity)
  }

  /** What one asset adds to the total: its latest price times its multiplier, or nothing without a price. */
  function Contribution(asset: AssetRow, prices: seq<PriceRow>): int
  {
    match LatestPrice(prices, asset.id)
    case None => 0
    case Some(latest) => Worth(latest.price, asset.quantity)
  }

  /** The sum of the contributions of the assets, added in order. */
  function Total(assets: seq<AssetRow>, prices: seq<PriceRow>): int
  {
    if assets == [] then 0
    else Total(assets[..|assets| - 1], prices) + Contribution(assets[|assets| - 1], prices)
  }

  /** The asset query is query 0 and the price query of the k-th asset is query
      k + 1; one of them fails. */
  predicate FailsWithin(fault: StorageFault, assetCount: nat)
  {
    fault.FailsAt? && fault.query <= assetCount
  }

  /** The value of the user's portfolio: the sum, over the user's assets, of
      each one's contribution at its latest price. Any storage failure, in the
      asset query or a price query, gives "Failed to calculate portfolio value"
      and no total. The call is counted, then counted again as a success or a
      failure. */
  method CalculatePortfolioValue(assetTable: seq<AssetRow>, priceTable: seq<PriceRow>, userId: string, fault: StorageFault)
    returns (r: Result<Valuation>, metrics: seq<Metric>)
    ensures var owned := UserAssets(assetTable, userId);
            r == if FailsWithin(fault, |owned|) then Err(InternalServerError(ValueFailedMessage))
                 else Ok(Valuation(Total(owned, priceTable)))
    ensures metrics == [ValueCount, if r.Ok? then ValueSuccess else ValueFailure]
  {
    if Fails(fault, 0) {
      return Err(InternalServerError(ValueFailedMessage)), [ValueCount, ValueFailure];
    }
    var assets := UserAssets(assetTable, userId);
    var totalValue := 0;
    var i := 0;
    while i < |assets|
      invariant 0 <= i <= |assets|
      invariant !FailsWithin(fault, i)
      invariant totalValue == PrefixTotal(assets, i, priceTable)
    {
      if Fails(fault, i + 1) {
        return Err(InternalServerError(ValueFailedMessage)), [ValueCount, ValueFailure];
      }
      var latestPrice := LatestPrice(priceTable, assets[i].id);
      if latestPrice.Some? {
        totalValue := totalValue + Worth(latestPrice.value.price, assets[i].quantity);
      }
      i := i + 1;
    }
    PrefixTotalIsTotal(assets, i, priceTable);
    assert assets[..i] == assets;
    r := Ok(Valuation(totalValue));
    metrics := [ValueCount, ValueSuccess];
  }

  /** The running total after the first `n` assets of the loop. It adds up the
      same contributions as `Total` (`PrefixTotalIsTotal`); it counts by index
      rather than slicing the sequence so that the loop invariant stays cheap
      for the verifier. */
  function PrefixTotal(assets: seq<AssetRow>, n: nat, prices: seq<PriceRow>): int
    requires n <= |assets|
  {
    if n == 0 then 0 else PrefixTotal(assets, n - 1, prices) + Contribution(assets[n - 1], prices)
  }

  /** The running total after `n` assets is the total of those `n` assets. */
  lemma {:induction false} PrefixTotalIsTotal(assets: seq<AssetRow>, n: nat, prices: seq<PriceRow>)
    requires n <= |assets|
    ensures PrefixTotal(assets, n, prices) == Total(assets[..n], prices)
  {
    if n > 0 {
      PrefixTotalIsTotal(assets, n - 1, prices);
      TotalStep(assets, n - 1, prices);
    }
  }

  /** Adding the next asset of a prefix adds its contribution. */
  lemma TotalStep(assets: seq<AssetRow>, i: nat, prices: seq<PriceRow>)
    requires i < |assets|
    ensures Total(assets[..i + 1], prices) == Total(assets[..i], prices) + Contribution(assets[i], prices)
  {
    assert assets[..i + 1][..i] == assets[..i];
  }

  /** The total of two stretches of assets is the sum of their totals. */
  lemma {:induction false} TotalAppend(a: seq<AssetRow>, b: seq<AssetRow>, prices: seq<PriceRow>)
    ensures Total(a + b, prices) == Total(a, prices) + Total(b, prices)
    decreases |b|
  {
    if b == [] {
      assert a + b == a;
    } else {
      var init := b[..|b| - 1];
      assert (a + b)[..|a + b| - 1] == a + init;
      TotalAppend(a, init, prices);
    }
  }

  /** Swapping two stretches of assets does not change the total. */
  lemma TotalReorder(a: seq<AssetRow>, b: seq<AssetRow>, prices: seq<PriceRow>)
    ensures Total(a + b, prices) == Total(b + a, prices)
  {
    TotalAppend(a, b, prices);
    TotalAppend(b, a, prices);
  }

  /** Taking one asset out of the sequence takes its contribution out of the total. */
  lemma TotalRemoveAt(b: seq<AssetRow>, j: nat, prices: seq<PriceRow>)
    requires j < |b|
    ensures Total(b, prices) == Total(b[..j] + b[j + 1..], prices) + Total([b[j]], prices)
  {
    assert b == b[..j] + ([b[j]] + b[j + 1..]);
    TotalAppend(b[..j], [b[j]] + b[j + 1..], prices);
    TotalAppend([b[j]], b[j + 1..], prices);
    TotalAppend(b[..j], b[j + 1..], prices);
  }

  /** Taking one element out of a sequence takes one occurrence out of its multiset. */
  lemma MultisetRemoveAt(b: seq<AssetRow>, j: nat)
    requires j < |b|
    ensures multiset(b[..j] + b[j + 1..]) == multiset(b) - multiset{b[j]}
  {
    assert b == b[..j] + [b[j]] + b[j + 1..];
  }

  /** Any permutation of the assets has the same total, so the total does not
      depend on the order in which the asset query returns the rows. */
  lemma {:induction false} TotalPermutation(a: seq<AssetRow>, b: seq<AssetRow>, prices: seq<PriceRow>)
    requires multiset(a) == multiset(b)
    ensures Total(a, prices) == Total(b, prices)
    decreases |a|
  {
    if a == [] {
      assert |b| == |multiset(b)| == 0;
    } else {
      var init, last := a[..|a| - 1], a[|a| - 1];
      assert a == init + [last];
      assert multiset(init) == multiset(a) - multiset{last};
      assert last in multiset(b);
      var j :| 0 <= j < |b| && b[j] == last;
      MultisetRemoveAt(b, j);
      TotalPermutation(init, b[..j] + b[j + 1..], prices);
      TotalAppend(init, [last], prices);
      TotalRemoveAt(b, j, prices);
    }
  }

  /** Assets without any price row add nothing: the total is 0, not an error. */
  lemma {:induction false} TotalWithoutPrices(assets: seq<AssetRow>, prices: seq<PriceRow>)
    requires forall i, k :: 0 <= i < |assets| && 0 <= k < |prices| ==> prices[k].assetId != assets[i].id
    ensures Total(assets, prices) == 0
  {
    if assets != [] {
      var init := assets[..|assets| - 1];
      assert forall i :: 0 <= i < |init| ==> init[i] == assets[i];
      TotalWithoutPrices(init, prices);
      LatestPriceIsLatest(prices, assets[|assets| - 1].id);
    }
  }

  /** With non-negative prices and quantities the total is non-negative. */
  lemma {:induction false} TotalNonNegative(assets: seq<AssetRow>, prices: seq<PriceRow>)
    requires forall k :: 0 <= k < |prices| ==> prices[k].price >= 0
    requires forall i :: 0 <= i < |assets| && assets[i].quantity.Some? ==> assets[i].quantity.value >= 0
    ensures Total(assets, prices) >= 0
  {
    if assets != [] {
      var init := assets[..|assets| - 1];
      var last := assets[|assets| - 1];
      assert forall i :: 0 <= i < |init| ==> init[i] == assets[i];
      TotalNonNegative(init, prices);
      var latest := LatestPrice(prices, last.id);
      LatestPriceIsLatest(prices, last.id);
      if latest.Some? {
        assert latest.value.price >= 0 && Multiplier(last.quantity) >= 1;
      }
    }
  }

  /** A priced asset contributes its latest price times its quantity, or the
      price alone when the quantity is null, absent or zero; an unpriced one contributes nothing. */
  lemma ContributionOf(asset: AssetRow, prices: seq<PriceRow>)
    ensures LatestPrice(prices, asset.id).None? ==> Contribution(asset, prices) == 0
    ensures LatestPrice(prices, asset.id).Some? && asset.quantity.Some? && asset.quantity.value != 0 ==>
              Contribution(asset, prices) == LatestPrice(prices, asset.id).value.price * asset.quantity.value
    ensures LatestPrice(prices, asset.id).Some? && (asset.quantity.None? || asset.quantity.value == 0) ==>
              Contribution(asset, prices) == LatestPrice(prices, asset.id).value.price
  {
  }

  /** An asset of quantity 2 priced 100 and one of quantity 3 priced 200 are worth 800. */
  method TwoAssetPortfolio() returns (r: Result<Valuation>)
    ensures r == Ok(Valuation(800))
  {
    var a1 := AssetRow("asset1", "testUserId", "Asset 1", "ERC-20", "0x01", "Ethereum", None, Some(2));
    var a2 := AssetRow("asset2", "testUserId", "Asset 2", "ERC-20", "0x02", "Ethereum", None, Some(3));
    var p1 := PriceRow("p1", "asset1", 19358, 100);
    var p2 := PriceRow("p2", "asset2", 19358, 200);
    var prices := [p1, p2];
    assert prices[1..] == [p2] && [p2][1..] == [];
    assert LatestPrice([p2], "asset1") == None;
    assert LatestPrice(prices, "asset1") == Some(p1);
    assert LatestPrice([p2], "asset2") == Some(p2);
    assert LatestPrice(prices, "asset2") == Some(p2);
    var table := [a1, a2];
    UserAssetsAll(table, "testUserId");
    assert table[..1] == [a1] && [a1][..0] == [];
    assert Contribution(a1, prices) == 200;
    assert Contribution(a2, prices) == 600;
    assert Total([a1], prices) == 200;
    assert Total(table, prices) == 800;
    var metrics;
    r, metrics := CalculatePortfolioValue(table, prices, "testUserId", NoFault);
  }

  /** A user without assets has a portfolio worth 0. */
  method EmptyPortfolio(assetTable: seq<AssetRow>, priceTable: seq<PriceRow>, userId: string) returns (r: Result<Valuation>)
    requires forall k :: 0 <= k < |assetTable| ==> assetTable[k].userId != userId
    ensures r == Ok(Valuation(0))
  {
    var metrics;
    r, metrics := CalculatePortfolioValue(assetTable, priceTable, userId, NoFault);
  }

  /** The price rows of one asset, in stored order, each projected to `{ asset_id, date, price }`;
      a storage failure gives "Failed to fetch asset history". */
  function GetAssetHistory(prices: seq<PriceRow>, assetId: string, fault: StorageFault): (h: Logged<seq<DailyPrice>>)
    ensures h.result.Err? <==> Fails(fault, 0)
    ensures h.result.Err? ==> h == Logged(Err(InternalServerError(HistoryFailedMessage)), [HistoryCount, HistoryFailure])
    ensures h.result.Ok? ==> h.metrics == [HistoryCount, HistorySuccess]
    ensures h.result.Ok? ==> h.result.value == History(prices, assetId)
  {
    if Fails(fault, 0) then
      Logged(Err(InternalServerError(HistoryFailedMessage)), [HistoryCount, HistoryFailure])
    else
      Logged(Ok(History(prices, assetId)), [HistoryCount, HistorySuccess])
  }

  /** The projection of a price row. */
  function Daily(row: PriceRow): DailyPrice
  {
    DailyPrice(row.assetId, row.date, row.price)
  }

  function History(prices: seq<PriceRow>, assetId: string): (history: seq<DailyPrice>)
    ensures |history| == |AssetPrices(prices, assetId)|
    ensures forall k :: 0 <= k < |history| ==>
              history[k].assetId == assetId && exists j :: 0 <= j < |prices| && Daily(prices[j]) == history[k]
    ensures forall j :: 0 <= j < |prices| && prices[j].assetId == assetId ==> Daily(prices[j]) in history
  {
    var rows := AssetPrices(prices, assetId);
    var history := Map(Daily, rows);
    assert forall j :: 0 <= j < |prices| && prices[j].assetId == assetId ==> Daily(prices[j]) in history by {
      forall j | 0 <= j < |prices| && prices[j].assetId == assetId ensures Daily(prices[j]) in history {
        var i :| 0 <= i < |rows| && rows[i] == prices[j];
        assert history[i] == Daily(prices[j]);
      }
    }
    history
  }

  /** The history keeps the stored order: the history of two stretches of the table is the two histories in turn. */
  lemma HistoryAppend(a: seq<PriceRow>, b: seq<PriceRow>, assetId: string)
    ensures History(a + b, assetId) == History(a, assetId) + History(b, assetId)
  {
    FilterAppend((row: PriceRow) => row.assetId == assetId, a, b);
    MapAppend(Daily, AssetPrices(a, assetId), AssetPrices(b, assetId));
  }

  /** The price the valuation uses is in the asset's history and is dated no earlier than any entry of it. */
  lemma LatestInHistory(prices: seq<PriceRow>, assetId: string)
    requires LatestPrice(prices, assetId).Some?
    ensures var latest := LatestPrice(prices, assetId).value;
            && Daily(latest) in History(prices, assetId)
            && forall k :: 0 <= k < |History(prices, assetId)| ==> History(prices, assetId)[k].date <= latest.date
  {
    LatestPriceIsLatest(prices, assetId);
    var latest := LatestPrice(prices, assetId).value;
    var history := History(prices, assetId);
    forall k | 0 <= k < |history| ensures history[k].date <= latest.date {
      var j :| 0 <= j < |prices| && Daily(prices[j]) == history[k];
    }
  }
}
