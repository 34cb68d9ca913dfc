/**
 * The asset database the cleaner writes through: a map from asset path to
 * the asset's identity (its GUID) and its stored content. Only the three
 * primitives the cleaner calls are modelled, each as a pure step on the map
 * and as a method of the database object that performs that step.
 */
module AssetStore {
  import opened UnityMaterial

  type Guid = nat

  datatype Content = MaterialAsset(data: MaterialData) | OtherAsset(kind: string)

  /** A stored asset: the identity other assets refer to it by, and its content. */
  datatype Entry = Entry(guid: Guid, content: Content)

  type Store = map<string, Entry>

  /**
   * Every stored GUID was minted before `next`, and no two paths share one:
   * a GUID names exactly one asset.
   */
  ghost predicate IdentitiesValid(s: Store, next: Guid) {
    && (forall p :: p in s ==> s[p].guid < next)
    && (forall p, q :: p in s && q in s && p != q ==> s[p].guid != s[q].guid)
  }

  /** AssetDatabase.CreateAsset: a new asset with a freshly minted GUID at `path`; whatever was there is dropped. */
  function Created(s: Store, path: string, content: Content, minted: Guid): Store {
    s[path := Entry(minted, content)]
  }

  /**
   * FileUtil.ReplaceFile: the file at `dst` gets the content of the file at
   * `src`; the identity recorded for `dst` stays (a missing `dst` gets a
   * freshly minted one). Nothing happens when `src` does not exist.
   */
  function Replaced(s: Store, src: string, dst: string, minted: Guid): Store {
    if src !in s then s
    else s[dst := Entry(if dst in s then s[dst].guid else minted, s[src].content)]
  }

  /** AssetDatabase.DeleteAsset. */
  function Deleted(s: Store, path: string): Store {
    s - {path}
  }

  class AssetDatabase {
    var assets: Store
    var nextGuid: Guid

    ghost predicate Valid()
      reads this
    {
      IdentitiesValid(assets, nextGuid)
    }

    constructor ()
      ensures Valid() && assets == map[]
    {
      assets := map[];
      nextGuid := 0;
    }

    method CreateAsset(content: Content, path: string)
      requires Valid()
      modifies this
      ensures Valid()
      ensures assets == Created(old(assets), path, content, old(nextGuid))
      ensures nextGuid == old(nextGuid) + 1
    {
      assets := Created(assets, path, content, nextGuid);
      nextGuid := nextGuid + 1;
    }

    method ReplaceFile(src: string, dst: string)
      requires Valid()
      modifies this
      ensures Valid()
      ensures assets == Replaced(old(assets), src, dst, old(nextGuid))
      ensures nextGuid == old(nextGuid) + 1
    {
      assets := Replaced(assets, src, dst, nextGuid);
      nextGuid := nextGuid + 1;
    }

    method DeleteAsset(path: string)
      requires Valid()
      modifies this
      ensures Valid()
      ensures assets == Deleted(old(assets), path) && nextGuid == old(nextGuid)
    {
      assets := Deleted(assets, path);
    }
  }
}
