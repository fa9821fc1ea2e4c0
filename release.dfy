/** The release the updater installs from, and the lookup of the asset to download. The
    release itself comes from the feed query, which is not part of this model. */
module Releases {
  import opened Wrappers

  /** A signed 64-bit integer, the type of an asset's declared size. */
  newtype i64 = x: int | -0x8000_0000_0000_0000 <= x < 0x8000_0000_0000_0000

  datatype Asset = Asset(name: string, browserDownloadUrl: string, size: i64)

  datatype Release = Release(tagName: string, assets: seq<Asset>)

  /** `assets.iter().find(|a| a.name == name)`: the position of the first asset whose name
      equals `name` exactly, or None when no asset has that name. */
  function FindAsset(assets: seq<Asset>, name: string): (r: Option<nat>)
    ensures r.Some? ==> r.value < |assets| && assets[r.value].name == name
    ensures r.Some? ==> forall j :: 0 <= j < r.value ==> assets[j].name != name
    ensures r.None? <==> forall j :: 0 <= j < |assets| ==> assets[j].name != name
  {
    if assets == [] then None
    else if assets[0].name == name then Some(0)
    else match FindAsset(assets[1..], name)
      case None => None
      case Some(i) => Some(i + 1)
  }

  /** Assets that come after the first match never change the lookup. */
  lemma {:induction false} FindAssetIgnoresSuffix(assets: seq<Asset>, more: seq<Asset>, name: string)
    requires FindAsset(assets, name).Some?
    ensures FindAsset(assets + more, name) == FindAsset(assets, name)
  {
    if assets[0].name != name {
      assert (assets + more)[1..] == assets[1..] + more;
      FindAssetIgnoresSuffix(assets[1..], more, name);
    }
  }
}
