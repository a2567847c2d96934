/** Where the default overlay image comes from: a page-level override, or the
    demo image under the static-asset base path, or nowhere.

    A page setting is None when it is undefined or null; a string is truthy in
    JavaScript exactly when it is not empty. */
module DefaultOverlay {
  import opened Wrappers

  /** Path of the demo image below the static-asset base. */
  const DemoImagePath: string := "minimaps/demo-overlay.jpg"

  /** JavaScript truthiness of a string setting that may be missing. */
  predicate Truthy(v: Option<string>)
  {
    v.Some? && v.value != ""
  }

  /** `DEFAULT_OVERLAY_URL`: `override || (staticUrl ? staticUrl + path : null)`. */
  function DefaultOverlayUrl(overrideUrl: Option<string>, staticUrl: Option<string>): (url: Option<string>)
    // an override wins whenever it is truthy, whatever the base path
    ensures Truthy(overrideUrl) ==> url == overrideUrl
    // otherwise the demo image below a truthy base path
    ensures !Truthy(overrideUrl) && Truthy(staticUrl) ==>
              url.Some? && |url.value| == |staticUrl.value| + |DemoImagePath|
              && url.value[..|staticUrl.value|] == staticUrl.value
              && url.value[|staticUrl.value|..] == DemoImagePath
    // there is a URL exactly when one of the two settings is truthy
    ensures url.Some? <==> Truthy(overrideUrl) || Truthy(staticUrl)
    // and a URL, when there is one, is itself truthy: the boot guard only skips null
    ensures url.Some? ==> Truthy(url)
  {
    if Truthy(overrideUrl) then overrideUrl
    else if Truthy(staticUrl) then Some(staticUrl.value + DemoImagePath)
    else None
  }

  /** Assuming the page sets `window.STATIC_URL` to the Django setting
      `STATIC_URL` ("/static/"; the template that would do so is not part of
      this model) and no override, the default overlay is
      "/static/minimaps/demo-overlay.jpg". */
  lemma DefaultUrlUnderStaticBase()
    ensures DefaultOverlayUrl(None, Some("/static/")) == Some("/static/minimaps/demo-overlay.jpg")
    ensures DefaultOverlayUrl(Some(""), Some("/static/")) == Some("/static/minimaps/demo-overlay.jpg")
    ensures DefaultOverlayUrl(None, Some("")) == None
  {
    assert "/static/" + DemoImagePath == "/static/minimaps/demo-overlay.jpg";
  }
}
