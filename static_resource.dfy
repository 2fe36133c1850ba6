/** The URL of a file the back-end serves from its assets directory. */
module StaticResource {
  import opened Wrappers

  const AssetBase := "http://localhost:8000/assets/"

  /** `getStaticResourceUrl`: the asset URL of a path, or "" when there is no path. */
  function StaticResourceUrl(path: Option<string>): (url: string)
    ensures url == "" <==> path.None? || path.value == ""
    ensures url != "" ==> |url| == |AssetBase| + |path.value|
    ensures url != "" ==> url[..|AssetBase|] == AssetBase && url[|AssetBase|..] == path.value
  {
    if path.Some? && path.value != "" then AssetBase + path.value else ""
  }

  /** Different paths give different URLs: the path is what follows the base. */
  lemma UrlDeterminesPath(a: string, b: string)
    requires a != "" && b != ""
    requires StaticResourceUrl(Some(a)) == StaticResourceUrl(Some(b))
    ensures a == b
  {
    var url := StaticResourceUrl(Some(a));
    assert a == url[|AssetBase|..] == b;
  }
}
