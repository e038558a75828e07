/** Image URL construction of `src/utils/images.rs`: the `.webp` variant of an asset is
    used when the browser reports WebP support and the asset's native extension is one
    that the build converts. */
module Images {

  /** Native extensions for which a `.webp` copy of the asset exists. */
  const ConvertedImageExtensions: seq<string> := ["png", "jpg"]

  /** The URL an asset resolves to: its path, a dot, and the extension chosen by the
      support flag and the converted set. */
  function WebpUrl(path: string, defaultExtension: string, hasSupport: bool): string
  {
    path + "." + (if hasSupport && defaultExtension in ConvertedImageExtensions then "webp" else defaultExtension)
  }

  /** `build_webp_url`: fills a fresh buffer step by step, as the source does with
      `push_str` and `push`. */
  method BuildWebpUrl(path: string, defaultExtension: string, hasSupport: bool) returns (url: string)
    ensures url == WebpUrl(path, defaultExtension, hasSupport)
  {
    if hasSupport && defaultExtension in ConvertedImageExtensions {
      url := "";
      url := url + path;
      url := url + ".webp";
    } else {
      url := "";
      url := url + path;
      url := url + ['.'];
      url := url + defaultExtension;
    }
  }

  /** Without support the native extension is always kept. */
  lemma NoSupportKeepsExtension(path: string, defaultExtension: string)
    ensures WebpUrl(path, defaultExtension, false) == path + "." + defaultExtension
    ensures |WebpUrl(path, defaultExtension, false)| == |path| + 1 + |defaultExtension|
  {
  }

  /** With support, exactly the converted extensions are replaced by `webp`. */
  lemma SupportConvertsPngAndJpg(path: string, defaultExtension: string)
    ensures defaultExtension == "png" || defaultExtension == "jpg" ==>
      WebpUrl(path, defaultExtension, true) == path + ".webp"
    ensures defaultExtension != "png" && defaultExtension != "jpg" ==>
      WebpUrl(path, defaultExtension, true) == path + "." + defaultExtension
  {
  }

  /** Every URL starts with the path followed by a dot, and what follows the dot is the
      chosen extension, so path and extension can be read back from the URL. */
  lemma UrlLayout(path: string, defaultExtension: string, hasSupport: bool)
    ensures var url := WebpUrl(path, defaultExtension, hasSupport);
      && |url| > |path|
      && url[..|path|] == path
      && url[|path|] == '.'
      && url[|path| + 1..] == (if hasSupport && defaultExtension in ConvertedImageExtensions then "webp" else defaultExtension)
  {
  }

  /** Exact lengths of the two branches (the capacities the source reserves). */
  lemma UrlLength(path: string, defaultExtension: string, hasSupport: bool)
    ensures var url := WebpUrl(path, defaultExtension, hasSupport);
      if hasSupport && (defaultExtension == "png" || defaultExtension == "jpg")
      then |url| == |path| + 5
      else |url| == |path| + 1 + |defaultExtension|
  {
  }

  /** A `png` asset and a `jpg` asset at the same path share one WebP URL. */
  lemma PngAndJpgShareWebpUrl(path: string)
    ensures WebpUrl(path, "png", true) == WebpUrl(path, "jpg", true) == path + ".webp"
  {
  }

  /** Different paths never collide: the URL determines the path when the extension is fixed. */
  lemma UrlDeterminesPath(path1: string, path2: string, defaultExtension: string, hasSupport: bool)
    requires WebpUrl(path1, defaultExtension, hasSupport) == WebpUrl(path2, defaultExtension, hasSupport)
    ensures path1 == path2
  {
    var url := WebpUrl(path1, defaultExtension, hasSupport);
    UrlLayout(path1, defaultExtension, hasSupport);
    UrlLayout(path2, defaultExtension, hasSupport);
    assert |url| == |path1| + 1 + |url[|path1| + 1..]|;
  }
}
