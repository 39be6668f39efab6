/** The asset service: it adds a row to the `assets` table on behalf of a user,
    removes a row only when it belongs to that user, and lists a user's rows.
    The table is the `assets` field of the service object, which the two
    changing operations update in place. */
module Assets {
  import opened Common
  import opened Seqs
  import opened Schema

  const AddCount := Increment("assets.add_asset.count")
  const AddSuccess := Increment("assets.add_asset.success")
  const AddFailure := Increment("assets.add_asset.failure")
  const AssetsRemoved := Decrement("assets_removed")

  const AddFailedMessage := "Could not add asset"
  const NotFoundMessage := "Asset not found or not owned by user"

  /** The row `{ ...assetData, user_id: userId }` as stored, under the id the
      database generates: the caller's id overrides any `user_id` the data carries. */
  function NewRow(id: string, userId: string, data: AssetData): (row: AssetRow)
    ensures row.id == id && row.userId == userId
    ensures row.name == data.name && row.assetType == data.assetType
    ensures row.smartContractAddress == data.smartContractAddress && row.chain == data.chain
    ensures row.tokenId == data.tokenId && row.quantity == data.quantity
  {
    AssetRow(id, userId, data.name, data.assetType, data.smartContractAddress, data.chain, data.tokenId, data.quantity)
  }

  predicate HasId(rows: seq<AssetRow>, id: string)
  {
    exists k :: 0 <= k < |rows| && rows[k].id == id
  }

  /** Some row has this id and belongs to this user. */
  predicate Owns(rows: seq<AssetRow>, userId: string, assetId: string)
  {
    exists k :: 0 <= k < |rows| && rows[k].id == assetId && rows[k].userId == userId
  }

  /** The table after `deleteFrom('assets').where('id', '=', assetId).where('user_id', '=', userId)`. */
  function Without(rows: seq<AssetRow>, userId: string, assetId: string): (kept: seq<AssetRow>)
    ensures forall k :: 0 <= k < |kept| ==> kept[k] in rows && !(kept[k].id == assetId && kept[k].userId == userId)
    ensures forall k :: 0 <= k < |rows| && !(rows[k].id == assetId && rows[k].userId == userId) ==> rows[k] in kept
  {
    Filter((row: AssetRow) => !(row.id == assetId && row.userId == userId), rows)
  }

  /** Deleting keeps the surviving rows in their order. */
  lemma WithoutAppend(a: seq<AssetRow>, b: seq<AssetRow>, userId: string, assetId: string)
    ensures Without(a + b, userId, assetId) == Without(a, userId, assetId) + Without(b, userId, assetId)
  {
    FilterAppend((row: AssetRow) => !(row.id == assetId && row.userId == userId), a, b);
  }

  /** A delete that matches no row leaves the table as it is. */
  lemma {:induction false} WithoutNoMatch(rows: seq<AssetRow>, userId: string, assetId: string)
    requires !Owns(rows, userId, assetId)
    ensures Without(rows, userId, assetId) == rows
  {
    if rows != [] {
      WithoutNoMatch(rows[1..], userId, assetId);
      assert rows == [rows[0]] + rows[1..];
    }
  }

  /** With unique ids, removing an owned asset deletes exactly one row. */
  lemma {:induction false} WithoutRemovesOne(rows: seq<AssetRow>, userId: string, assetId: string)
    requires UniqueIds(rows)
    requires Owns(rows, userId, assetId)
    ensures |Without(rows, userId, assetId)| == |rows| - 1
  {
    assert UniqueIds(rows[1..]) by {
      forall i, j | 0 <= i < j < |rows[1..]| ensures rows[1..][i].id != rows[1..][j].id {
        assert rows[1..][i] == rows[i + 1] && rows[1..][j] == rows[j + 1];
      }
    }
    if rows[0].id == assetId && rows[0].userId == userId {
      WithoutNoMatch(rows[1..], userId, assetId);
    } else {
      assert Owns(rows[1..], userId, assetId) by {
        var k :| 0 <= k < |rows| && rows[k].id == assetId && rows[k].userId == userId;
        assert k > 0 && rows[1..][k - 1] == rows[k];
      }
      WithoutRemovesOne(rows[1..], userId, assetId);
    }
  }

  /** Deleting rows cannot create a duplicate id. */
  lemma {:induction false} WithoutKeepsUniqueIds(rows: seq<AssetRow>, userId: string, assetId: string)
    requires UniqueIds(rows)
    ensures UniqueIds(Without(rows, userId, assetId))
  {
    if rows != [] {
      var rest := rows[1..];
      assert UniqueIds(rest) by {
        forall i, j | 0 <= i < j < |rest| ensures rest[i].id != rest[j].id {
          assert rest[i] == rows[i + 1] && rest[j] == rows[j + 1];
        }
      }
      WithoutKeepsUniqueIds(rest, userId, assetId);
      var tail := Without(rest, userId, assetId);
      forall k | 0 <= k < |tail| ensures tail[k].id != rows[0].id {
        var i :| 0 <= i < |rest| && rest[i] == tail[k];
        assert rows[i + 1] == rest[i];
      }
    }
  }

  /** The projection `{ id, name, user_id }` of a row. */
  function Summary(row: AssetRow): AssetSummary
  {
    AssetSummary(row.id, row.name, row.userId)
  }

  /** A user's rows, projected, in stored order. */
  function Listed(rows: seq<AssetRow>, userId: string): (listed: seq<AssetSummary>)
    ensures |listed| == |UserAssets(rows, userId)|
    ensures forall k :: 0 <= k < |listed| ==>
              listed[k].userId == userId && exists j :: 0 <= j < |rows| && Summary(rows[j]) == listed[k]
    ensures forall j :: 0 <= j < |rows| && rows[j].userId == userId ==> Summary(rows[j]) in listed
  {
    var owned := UserAssets(rows, userId);
    var listed := Map(Summary, owned);
    assert forall k :: 0 <= k < |listed| ==> listed[k] == Summary(owned[k]);
    assert forall j :: 0 <= j < |rows| && rows[j].userId == userId ==> Summary(rows[j]) in listed by {
      forall j | 0 <= j < |rows| && rows[j].userId == userId ensures Summary(rows[j]) in listed {
        var i :| 0 <= i < |owned| && owned[i] == rows[j];
        assert listed[i] == Summary(rows[j]);
      }
    }
    listed
  }

  /** Listing keeps the table order: the listing of two stretches of the table is the two listings in turn. */
  lemma ListedAppend(a: seq<AssetRow>, b: seq<AssetRow>, userId: string)
    ensures Listed(a + b, userId) == Listed(a, userId) + Listed(b, userId)
  {
    FilterAppend((row: AssetRow) => row.userId == userId, a, b);
    MapAppend(Summary, UserAssets(a, userId), UserAssets(b, userId));
  }

  class AssetsService {
    /** The contents of the `assets` table, in stored order. */
    var assets: seq<AssetRow>

    /** The table's primary key holds. */
    ghost predicate Valid()
      reads this
    {
      UniqueIds(assets)
    }

    constructor (assets: seq<AssetRow>)
      requires UniqueIds(assets)
      ensures Valid() && this.assets == assets
    {
      this.assets := assets;
    }

    /** Inserts the caller's asset and returns the stored row. The insert fails
        when the storage fails or the generated id is taken; then nothing is
        stored, the failure is counted and a plain "Could not add asset" error
        is thrown. Success is counted only after the insert. */
    method AddAsset(userId: string, assetData: AssetData, generatedId: string, fault: StorageFault)
      returns (r: Result<AssetRow>, metrics: seq<Metric>)
      requires Valid()
      modifies this
      ensures Valid()
      ensures var inserted := !Fails(fault, 0) && !HasId(old(assets), generatedId);
              var row := NewRow(generatedId, userId, assetData);
              && r == (if inserted then Ok(row) else Err(PlainError(AddFailedMessage)))
              && assets == (if inserted then old(assets) + [row] else old(assets))
              && metrics == [AddCount, if inserted then AddSuccess else AddFailure]
    {
      metrics := [AddCount];
      if Fails(fault, 0) || HasId(assets, generatedId) {
        r := Err(PlainError(AddFailedMessage));
        metrics := metrics + [AddFailure];
        return;
      }
      var row := NewRow(generatedId, userId, assetData);
      assets := assets + [row];
      metrics := metrics + [AddSuccess];
      r := Ok(row);
    }

    /** Removes the asset with this id if it belongs to this user. Query 0 is
        the ownership check and query 1 the delete; a storage error in either
        propagates unchanged. Without a matching row it throws "Asset not found
        or not owned by user" and the table is unchanged. The removal is counted
        only after the delete succeeds. */
    method RemoveAsset(userId: string, assetId: string, fault: StorageFault)
      returns (r: Result<()>, metrics: seq<Metric>)
      requires Valid()
      modifies this
      ensures Valid()
      ensures var removed := !Fails(fault, 0) && Owns(old(assets), userId, assetId) && !Fails(fault, 1);
              && assets == (if removed then Without(old(assets), userId, assetId) else old(assets))
              && metrics == (if removed then [AssetsRemoved] else [])
              && (removed ==> r == Ok(()) && |assets| == |old(assets)| - 1)
              && (Fails(fault, 0) ==> r == Err(PlainError(fault.message)))
              && (!Fails(fault, 0) && !Owns(old(assets), userId, assetId) ==> r == Err(PlainError(NotFoundMessage)))
              && (Owns(old(assets), userId, assetId) && Fails(fault, 1) ==> r == Err(PlainError(fault.message)))
    {
      metrics := [];
      if Fails(fault, 0) {
        return Err(PlainError(fault.message)), metrics;
      }
      if !Owns(assets, userId, assetId) {
        return Err(PlainError(NotFoundMessage)), metrics;
      }
      if Fails(fault, 1) {
        return Err(PlainError(fault.message)), metrics;
      }
      WithoutRemovesOne(assets, userId, assetId);
      WithoutKeepsUniqueIds(assets, userId, assetId);
      assets := Without(assets, userId, assetId);
      metrics := [AssetsRemoved];
      r := Ok(());
    }

    /** The user's assets in table order, each projected to `{ id, name, user_id }`;
        a storage error propagates unchanged. */
    function ListAssets(userId: string, fault: StorageFault): (r: Result<seq<AssetSummary>>)
      reads this
      ensures r.Err? <==> Fails(fault, 0)
      ensures r.Err? ==> r.error == PlainError(fault.message)
      ensures r.Ok? ==> r.value == Listed(assets, userId)
    {
      if Fails(fault, 0) then Err(PlainError(fault.message)) else Ok(Listed(assets, userId))
    }
  }
}
