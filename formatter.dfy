/**
 * The `spotify_embed` field formatter: its default settings, the summary of its
 * settings, and the render array it builds for a media item of the Spotify type.
 */
module EmbedFormatter {
  import opened Wrappers
  import opened SpotifyMedia

  /** Formatter settings: setting name to value. */
  type Settings = map<string, string>

  /**
   * PHP's array union `left + right`: every key of either operand, with the left
   * operand's value where both have the key.
   */
  function ArrayUnion(left: Settings, right: Settings): (u: Settings)
    ensures forall k :: k in u <==> k in left || k in right
    ensures forall k | k in left :: u[k] == left[k]
    ensures forall k | k in right && k !in left :: u[k] == right[k]
  {
    right + left
  }

  /** The formatter's own defaults. */
  const OwnDefaults: Settings :=
    map["theme" := "dark", "view" := "list", "width" := "300px", "height" := "380px"]

  /**
   * `defaultSettings`: the formatter's own defaults on top of the parent class's. The four
   * own values win over the parent's, and every other parent setting is kept.
   */
  function DefaultSettings(parent: Settings): (s: Settings)
    ensures "theme" in s && s["theme"] == "dark"
    ensures "view" in s && s["view"] == "list"
    ensures "width" in s && s["width"] == "300px"
    ensures "height" in s && s["height"] == "380px"
    ensures forall k | k in parent && k !in OwnDefaults :: k in s && s[k] == parent[k]
    ensures forall k | k in s :: k in OwnDefaults || k in parent
  {
    ArrayUnion(OwnDefaults, parent)
  }

  /** `getSetting`: the value of a setting, or NULL (None) when it has none. */
  function Setting(settings: Settings, key: string): (v: Option<string>)
    ensures v.Some? <==> key in settings
    ensures v.Some? ==> v.value == settings[key]
  {
    if key in settings then Some(settings[key]) else None
  }

  /** A placeholder's text: the value, or the empty string for NULL. */
  function Shown(v: Option<string>): string {
    v.GetOr("")
  }

  /** The settings the summary reports, in its order, and the label of each. */
  const SummaryKeys: seq<string> := ["theme", "view", "width", "height"]
  const SummaryLabels: seq<string> := ["Theme: ", "View: ", "Width: ", "Height: "]

  /**
   * `settingsSummary`: exactly four lines, theme, view, width and height in that order;
   * each is its label followed by the setting's value, so that dropping the label gives
   * the value back.
   */
  function SettingsSummary(settings: Settings): (summary: seq<string>)
    ensures |summary| == |SummaryKeys| == 4
    ensures forall i | 0 <= i < |summary| ::
              |SummaryLabels[i]| <= |summary[i]|
              && summary[i][..|SummaryLabels[i]|] == SummaryLabels[i]
              && summary[i][|SummaryLabels[i]|..] == Shown(Setting(settings, SummaryKeys[i]))
  {
    [ "Theme: " + Shown(Setting(settings, "theme")),
      "View: " + Shown(Setting(settings, "view")),
      "Width: " + Shown(Setting(settings, "width")),
      "Height: " + Shown(Setting(settings, "height")) ]
  }

  /** With the defaults in force, the summary reads dark, list, 300px and 380px. */
  lemma SummaryOfDefaults(parent: Settings)
    ensures SettingsSummary(DefaultSettings(parent))
            == ["Theme: dark", "View: list", "Width: 300px", "Height: 380px"]
  {
    var s := DefaultSettings(parent);
    assert Shown(Setting(s, "theme")) == "dark";
    assert Shown(Setting(s, "view")) == "list";
    assert Shown(Setting(s, "width")) == "300px";
    assert Shown(Setting(s, "height")) == "380px";
    assert "Theme: " + "dark" == "Theme: dark";
    assert "View: " + "list" == "View: list";
    assert "Width: " + "300px" == "Width: 300px";
    assert "Height: " + "380px" == "Height: 380px";
  }

  /** Theme hook of the render element. */
  const EmbedTheme: string := "media_spotify_embed"

  /** One render element: the theme hook, the URI and the four settings as they are. */
  datatype EmbedElement = EmbedElement(
    theme: string,
    uri: string,
    width: Option<string>,
    height: Option<string>,
    playerTheme: Option<string>,
    view: Option<string>)

  /** The element for `uri` under `settings`. */
  function Embed(uri: string, settings: Settings): EmbedElement {
    EmbedElement(EmbedTheme, uri, Setting(settings, "width"), Setting(settings, "height"),
                 Setting(settings, "theme"), Setting(settings, "view"))
  }

  /**
   * The render array for `itemCount` items when the `uri` field is `uri`: an element for
   * every delta when there is a URI, each with that URI and the settings; none otherwise.
   */
  function Rendered(itemCount: nat, uri: Option<string>, settings: Settings): (m: map<nat, EmbedElement>)
    ensures forall d: nat :: d in m <==> d < itemCount && uri.Some?
    ensures forall d | d in m :: m[d] == Embed(uri.value, settings)
  {
    if itemCount == 0 || uri.None? then map[]
    else Rendered(itemCount - 1, uri, settings)[itemCount - 1 := Embed(uri.value, settings)]
  }

  /** One more item adds its own delta to the render array, when there is a URI. */
  lemma RenderedStep(itemCount: nat, uri: Option<string>, settings: Settings)
    ensures Rendered(itemCount + 1, uri, settings)
            == if uri.None? then Rendered(itemCount, uri, settings)
               else Rendered(itemCount, uri, settings)[itemCount := Embed(uri.value, settings)]
  {
  }

  /** Requests made by `calls` successive `uri` lookups that start with the memo holding `held`. */
  function UriRequests(plugin: Spotify, held: Option<OEmbedData>, source: Option<string>,
                       calls: nat): nat
  {
    if !HasValue(source) || held.Some? || calls == 0 then 0
    else if plugin.Recall(held, source.value).Some? then 1
    else calls
  }

  /**
   * `viewElements` for a field with `itemCount` items on a media item whose source URL
   * is `source`; `plugin` is the item's media type, null when it is not the Spotify
   * type. Without the plugin the render array is empty. Otherwise it has an element for
   * every delta exactly when the `uri` field has a value, and every element carries that
   * one URI and the settings unchanged. The memo is consulted once per item, and no file
   * is touched.
   */
  method ViewElements(itemCount: nat, settings: Settings, source: Option<string>, plugin: Spotify?)
    returns (element: map<nat, EmbedElement>)
    requires plugin != null ==> plugin.Valid()
    modifies if plugin == null then {} else {plugin.slot, plugin.files}
    ensures plugin == null ==> element == map[]
    ensures plugin != null ==>
              var u := plugin.FieldResult(old(plugin.slot.data), old(plugin.files.paths), source, "uri");
              element == Rendered(itemCount, u, settings)
    ensures plugin != null ==> plugin.Valid() && unchanged(plugin.files)
    ensures plugin != null ==>
              plugin.slot.data == (if itemCount > 0 && HasValue(source)
                                   then plugin.Recall(old(plugin.slot.data), source.value)
                                   else old(plugin.slot.data))
    ensures plugin != null ==>
              plugin.slot.fetches
              == old(plugin.slot.fetches) + UriRequests(plugin, old(plugin.slot.data), source, itemCount)
  {
    element := map[];
    if plugin != null {
      ghost var held := plugin.slot.data;
      ghost var paths := plugin.files.paths;
      ghost var u := plugin.FieldResult(held, paths, source, "uri");
      plugin.UriFieldTruthy(held, paths, source);
      var delta := 0;
      while delta < itemCount
        invariant 0 <= delta <= itemCount
        invariant plugin.Valid() && unchanged(plugin.files)
        invariant plugin.slot.data == (if delta > 0 && HasValue(source)
                                       then plugin.Recall(held, source.value) else held)
        invariant plugin.slot.fetches
                  == old(plugin.slot.fetches) + UriRequests(plugin, held, source, delta)
        invariant element == Rendered(delta, u, settings)
      {
        if HasValue(source) {
          plugin.UriFieldStable(held, paths, paths, source);
        }
        RenderedStep(delta, u, settings);
        var uri := plugin.GetField(source, "uri");
        assert uri == u;
        if uri.Some? && IsTruthy(uri.value) {
          element := element[delta := Embed(uri.value, settings)];
        }
        assert element == Rendered(delta + 1, u, settings);
        delta := delta + 1;
      }
    }
  }
}
