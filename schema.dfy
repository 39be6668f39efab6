/** The rows of the two tables the core reads and writes, and the shapes the
    services hand back. */
module Schema {
  import opened Common
  import opened Seqs

  /** A row of the `assets` table. `quantity` is a nullable integer column. */
  datatype AssetRow = AssetRow(
    id: string,
    userId: string,
    name: string,
    assetType: string,
    smartContractAddress: string,
    chain: string,
    tokenId: Option<string>,
    quantity: Option<int>)

  /** The body of an "add asset" request. `userId` stands for a `user_id` key
      the body may carry besides the declared fields. */
  datatype AssetData = AssetData(
    name: string,
    assetType: string,
    smartContractAddress: string,
    chain: string,
    tokenId: Option<string>,
    quantity: Option<int>,
    userId: Option<string>)

  /** What listing the assets returns per row. */
  datatype AssetSummary = AssetSummary(id: string, name: string, userId: string)

  /** A row of the daily price table; `date` is a day number, so later days compare greater. */
  datatype PriceRow = PriceRow(id: string, assetId: string, date: nat, price: int)

  /** What the price history returns per row. */
  datatype DailyPrice = DailyPrice(assetId: string, date: nat, price: int)

  /** The rows `where('user_id', '=', userId)` selects, in stored order. */
  function UserAssets(rows: seq<AssetRow>, userId: string): (owned: seq<AssetRow>)
    ensures forall k :: 0 <= k < |owned| ==> owned[k] in rows && owned[k].userId == userId
    ensures forall k :: 0 <= k < |rows| && rows[k].userId == userId ==> rows[k] in owned
  {
    Filter((row: AssetRow) => row.userId == userId, rows)
  }

  /** When every row belongs to the user the query selects the whole table. */
  lemma UserAssetsAll(rows: seq<AssetRow>, userId: string)
    requires forall k :: 0 <= k < |rows| ==> rows[k].userId == userId
    ensures UserAssets(rows, userId) == rows
  {
    FilterAll((row: AssetRow) => row.userId == userId, rows);
  }

  /** The rows `where('asset_id', '=', assetId)` selects, in stored order. */
  function AssetPrices(prices: seq<PriceRow>, assetId: string): (rows: seq<PriceRow>)
    ensures forall k :: 0 <= k < |rows| ==> rows[k] in prices && rows[k].assetId == assetId
    ensures forall k :: 0 <= k < |prices| && prices[k].assetId == assetId ==> prices[k] in rows
  {
    Filter((row: PriceRow) => row.assetId == assetId, prices)
  }

  /** No two asset rows share an id (the primary key). */
  ghost predicate UniqueIds(rows: seq<AssetRow>)
  {
    forall i, j :: 0 <= i < j < |rows| ==> rows[i].id != rows[j].id
  }
}
