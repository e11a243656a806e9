/** The editor's asset index, reduced to what the scene code asks of it: which asset is
    stored at a path, where a live asset is stored, and the GUID of the asset at a path. */
module Assets {
  import opened Base

  /** An asset GUID in its string form; the empty string stands for the all-zero GUID. */
  type Guid = string

  const EmptyGuid: Guid := ""

  /** An asset, identified by its GUID; `isScene` tells whether it is a SceneAsset. */
  datatype Asset = Asset(guid: Guid, isScene: bool)

  /** The asset index: the asset at each path, and the path of each live asset. */
  datatype AssetDb = AssetDb(byPath: map<string, Asset>, pathOf: map<Asset, string>)

  /** The two directions of the index agree, no asset lives at the empty path, and no two
      live assets share a GUID. */
  ghost predicate Consistent(db: AssetDb) {
    && "" !in db.byPath
    && (forall a, b :: a in db.pathOf && b in db.pathOf && a.guid == b.guid ==> a == b)
    && (forall p :: p in db.byPath ==> db.byPath[p] in db.pathOf && db.pathOf[db.byPath[p]] == p)
    && (forall a :: a in db.pathOf ==> db.pathOf[a] in db.byPath && db.byPath[db.pathOf[a]] == a)
  }

  /** Unity's overloaded null test on an asset handle: a handle to a deleted asset is null too. */
  predicate Live(db: AssetDb, handle: Option<Asset>) {
    handle.Some? && handle.value in db.pathOf
  }

  /** AssetDatabase.GetAssetPath: the stored path of a live asset, empty otherwise. */
  function AssetPath(db: AssetDb, handle: Option<Asset>): (p: string)
    ensures Consistent(db) && Live(db, handle) ==> p != "" && p in db.byPath && db.byPath[p] == handle.value
    ensures !Live(db, handle) ==> p == ""
  {
    if Live(db, handle) then db.pathOf[handle.value] else ""
  }

  /** AssetDatabase.LoadAssetAtPath<SceneAsset>: the scene asset stored at `path`, if any. */
  function LoadSceneAssetAtPath(db: AssetDb, path: string): (r: Option<Asset>)
    ensures r.Some? ==> r.value.isScene && path in db.byPath
    ensures Consistent(db) && r.Some? ==> Live(db, r) && db.pathOf[r.value] == path
  {
    if path in db.byPath && db.byPath[path].isScene then Some(db.byPath[path]) else None
  }

  /** AssetDatabase.AssetPathToGUID: the GUID of the asset at `path`, the empty GUID if none. */
  function AssetPathToGuid(db: AssetDb, path: string): (g: Guid)
    ensures Consistent(db) && path in db.byPath ==> g == db.byPath[path].guid
    ensures path !in db.byPath ==> g == EmptyGuid
  {
    if path in db.byPath then db.byPath[path].guid else EmptyGuid
  }
}
