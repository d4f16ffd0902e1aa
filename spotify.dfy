/**
 * The Spotify media type plugin: the oEmbed memo, the fields it provides (`html`,
 * `thumbnail_uri`, `uri`) and the thumbnail it chooses.
 *
 * The remote service and the file system are given to the plugin as objects and a
 * function, so that what the plugin asks of them can be stated exactly.
 */
module SpotifyMedia {
  import opened Wrappers
  import opened SpotifyUri
  import opened PathName

  /** Decoded oEmbed response: the JSON object's members, each value taken as a string. */
  type OEmbedData = map<string, string>

  /** Prefix of the oEmbed request; the media URL is appended as it is, unencoded. */
  const OEmbedEndpoint: string := "https://embed.spotify.com/oembed/?url="

  /** File name of the icon used when there is no thumbnail of the media's own. */
  const DefaultIconName: string := "spotify.png"

  /** PHP truthiness of a string: every string but "" and "0" is true. */
  predicate IsTruthy(s: string) {
    s != "" && s != "0"
  }

  /** PHP truthiness of a value that is a string or FALSE/NULL (None). */
  predicate HasValue(v: Option<string>) {
    v.Some? && IsTruthy(v.value)
  }

  /** PHP truthiness of a decoded response: NULL and the empty array are false. */
  predicate HasData(d: Option<OEmbedData>) {
    d.Some? && |d.value| > 0
  }

  /**
   * Where the local copy of a remote thumbnail goes: the destination directory, a slash,
   * and the remote file's base name. The result is a true string, and it keeps the remote
   * file's name whenever that name is not empty; when that name is empty, the result is
   * the destination directory followed by a slash.
   */
  function LocalUri(destination: string, thumbnailUrl: string): (p: string)
    ensures IsTruthy(p)
    ensures |p| > |destination| && p[..|destination|] == destination && p[|destination|] == '/'
    ensures p[|destination| + 1..] == Basename(thumbnailUrl)
    ensures Basename(thumbnailUrl) != [] ==> Basename(p) == Basename(thumbnailUrl)
  {
    var p := destination + "/" + Basename(thumbnailUrl);
    JoinParts(destination, Basename(thumbnailUrl));
    if Basename(thumbnailUrl) == [] then p
    else BasenameOfJoin(destination, Basename(thumbnailUrl)); p
  }

  /**
   * The `drupal_static` slot that the plugin's oEmbed memo is bound to. It is keyed by the
   * function's name alone, so every plugin instance sharing it, whatever its URL, sees the
   * same data. `fetches` counts the requests made through it and `fills` the times it
   * received data; the invariant is that it received data at most once.
   */
  class StaticSlot {
    var data: Option<OEmbedData>
    ghost var fetches: nat
    ghost var fills: nat

    ghost predicate Valid()
      reads this
    {
      fills == (if data.Some? then 1 else 0)
    }

    constructor()
      ensures Valid()
      ensures data == None && fetches == 0 && fills == 0
    {
      data := None;
      fetches := 0;
      fills := 0;
    }
  }

  /**
   * The file system as far as the thumbnail code sees it: the set of existing paths,
   * with ghost counters of the downloads and the file writes made. A path is kept
   * without the slashes at its end, as the operating system resolves it: `dir/` names
   * the directory `dir`.
   */
  class FileSystem {
    var paths: set<string>
    ghost var downloads: nat
    ghost var writes: nat

    /** The file system holding `existing`, each path kept without its trailing slashes. */
    constructor(existing: set<string>)
      ensures paths == set p | p in existing :: TrimTrailingSlashes(p)
      ensures forall p | p in existing :: Exists(p)
      ensures downloads == 0 && writes == 0
    {
      paths := set p | p in existing :: TrimTrailingSlashes(p);
      downloads := 0;
      writes := 0;
    }

    /** `file_exists`: the path, with any slashes at its end ignored, is present. */
    predicate Exists(path: string)
      reads this
    {
      TrimTrailingSlashes(path) in paths
    }

    /** A directory and the same path with a slash appended exist together. */
    lemma ExistsWithSlash(path: string)
      ensures Exists(path) <==> Exists(path + "/")
    {
      TrimAppendedSlash(path);
    }

    /** `file_prepare_directory` with the create flag: the directory exists afterwards. */
    method PrepareDirectory(directory: string)
      modifies this
      ensures paths == old(paths) + {TrimTrailingSlashes(directory)}
      ensures downloads == old(downloads) && writes == old(writes)
    {
      paths := paths + {TrimTrailingSlashes(directory)};
    }

    /** `file_get_contents` on a remote URL: one download; the bytes are not modelled. */
    method Download(url: string)
      modifies this
      ensures paths == old(paths) && writes == old(writes)
      ensures downloads == old(downloads) + 1
    {
      downloads := downloads + 1;
    }

    /** `file_unmanaged_save_data` replacing any existing file: the path exists afterwards. */
    method Save(path: string)
      modifies this
      ensures paths == old(paths) + {TrimTrailingSlashes(path)}
      ensures downloads == old(downloads)
      ensures writes == old(writes) + 1
    {
      paths := paths + {TrimTrailingSlashes(path)};
      writes := writes + 1;
    }
  }

  /** A directory listed with a trailing slash at the start is found with and without it. */
  method SlashedDirectoryFound() returns (found: bool)
    ensures found
  {
    var fs := new FileSystem({"d/"});
    assert TrimTrailingSlashes("d/") == "d";
    found := fs.Exists("d/") && fs.Exists("d");
  }

  /**
   * The plugin. `fetch` stands for the HTTP GET and the JSON decoding of its body (None
   * when the body does not decode); `destination` and `iconBase` are the two configured
   * directories.
   */
  class Spotify {
    const fetch: string -> Option<OEmbedData>
    const destination: string
    const iconBase: string
    const slot: StaticSlot
    const files: FileSystem

    ghost predicate Valid()
      reads slot
    {
      slot.Valid()
    }

    constructor(fetch: string -> Option<OEmbedData>, destination: string, iconBase: string,
                slot: StaticSlot, files: FileSystem)
      requires slot.Valid()
      ensures Valid()
      ensures this.fetch == fetch && this.destination == destination && this.iconBase == iconBase
      ensures this.slot == slot && this.files == files
    {
      this.fetch := fetch;
      this.destination := destination;
      this.iconBase := iconBase;
      this.slot := slot;
      this.files := files;
    }

    /**
     * What the memo holds after a call for `url` when it held `held`: the held data if
     * there is any, and otherwise the response to the request for `url`.
     */
    function Recall(held: Option<OEmbedData>, url: string): (d: Option<OEmbedData>)
      ensures held.Some? ==> d == held
    {
      if held.Some? then held else fetch(OEmbedEndpoint + url)
    }

    /**
     * The thumbnail path a call writes and returns: the local copy of the response's
     * `thumbnail_url`, when there is one and nothing exists at that path yet.
     */
    function NewThumbnail(data: OEmbedData, paths: set<string>): (p: Option<string>)
      ensures p.Some? <==> "thumbnail_url" in data
                              && TrimTrailingSlashes(LocalUri(destination, data["thumbnail_url"])) !in paths
      ensures p.Some? ==> p.value == LocalUri(destination, data["thumbnail_url"])
    {
      if "thumbnail_url" in data then
        var local := LocalUri(destination, data["thumbnail_url"]);
        if TrimTrailingSlashes(local) !in paths then Some(local) else None
      else None
    }

    /**
     * The value of field `name` for a media item whose source URL is `source`, given the
     * memo's content `held` and the existing `paths` before the call.
     */
    function FieldResult(held: Option<OEmbedData>, paths: set<string>, source: Option<string>,
                         name: string): (r: Option<string>)
      ensures !HasValue(source) ==> r.None?
      ensures HasValue(source) && !HasData(Recall(held, source.value)) ==> r.None?
      ensures name != "html" && name != "thumbnail_uri" && name != "uri" ==> r.None?
    {
      if !HasValue(source) then None
      else
        var d := Recall(held, source.value);
        if !HasData(d) then None
        else if name == "html" then (if "html" in d.value then Some(d.value["html"]) else None)
        else if name == "thumbnail_uri" then NewThumbnail(d.value, paths)
        else if name == "uri" then ResolveUri(source.value)
        else None
    }

    /** The path a call writes: a field value only when the field is `thumbnail_uri`. */
    function Written(held: Option<OEmbedData>, paths: set<string>, source: Option<string>,
                     name: string): Option<string>
    {
      if name == "thumbnail_uri" then FieldResult(held, paths, source, name) else None
    }

    /**
     * The oEmbed data for `url`. An empty slot is filled with the response to a request
     * for the endpoint followed by `url`; a slot with data is answered from memory, with
     * no request, whatever `url` is.
     */
    method OEmbed(url: string) returns (data: Option<OEmbedData>)
      requires Valid()
      modifies slot
      ensures Valid()
      ensures data == slot.data == Recall(old(slot.data), url)
      ensures old(slot.data).None? ==> data == fetch(OEmbedEndpoint + url)
      ensures slot.fetches == old(slot.fetches) + (if old(slot.data).None? then 1 else 0)
    {
      if slot.data.None? {
        var response := fetch(OEmbedEndpoint + url);
        slot.fetches := slot.fetches + 1;
        slot.data := response;
        if response.Some? {
          slot.fills := slot.fills + 1;
        }
      }
      data := slot.data;
    }

    /**
     * The `thumbnail_uri` branch once data is at hand: a new local copy is written and
     * its path returned; with no `thumbnail_url`, or with a file already at the path,
     * nothing is touched and the result is FALSE.
     */
    method ThumbnailUri(data: OEmbedData) returns (r: Option<string>)
      modifies files
      ensures r == NewThumbnail(data, old(files.paths))
      ensures r.Some? ==> files.paths == old(files.paths) + {TrimTrailingSlashes(destination)} + {TrimTrailingSlashes(r.value)}
                          && files.downloads == old(files.downloads) + 1
                          && files.writes == old(files.writes) + 1
      ensures r.None? ==> unchanged(files)
    {
      if "thumbnail_url" in data {
        var remote := data["thumbnail_url"];
        var local := LocalUri(destination, remote);
        if !files.Exists(local) {
          files.PrepareDirectory(destination);
          files.Download(remote);
          files.Save(local);
          return Some(local);
        }
      }
      return None;
    }

    /**
     * `getField`: FALSE without a true source URL or without true oEmbed data, and
     * otherwise the `html` member, a new local thumbnail, or the canonical URI. Only a
     * `thumbnail_uri` call that returns a path changes the file system.
     */
    method GetField(source: Option<string>, name: string) returns (r: Option<string>)
      requires Valid()
      modifies slot, files
      ensures Valid()
      ensures r == FieldResult(old(slot.data), old(files.paths), source, name)
      ensures slot.data == (if HasValue(source) then Recall(old(slot.data), source.value) else old(slot.data))
      ensures slot.fetches == old(slot.fetches) + (if HasValue(source) && old(slot.data).None? then 1 else 0)
      ensures var w := Written(old(slot.data), old(files.paths), source, name);
              if w.Some? then
                files.paths == old(files.paths) + {TrimTrailingSlashes(destination)} + {TrimTrailingSlashes(w.value)}
                && files.downloads == old(files.downloads) + 1
                && files.writes == old(files.writes) + 1
              else unchanged(files)
    {
      if source.Some? && IsTruthy(source.value) {
        var url := source.value;
        var data := OEmbed(url);
        if HasData(data) {
          if name == "html" {
            return if "html" in data.value then Some(data.value["html"]) else None;
          } else if name == "thumbnail_uri" {
            r := ThumbnailUri(data.value);
            return;
          } else if name == "uri" {
            return ResolveUri(url);
          }
        }
      }
      return None;
    }

    /** `getDefaultThumbnail`: the Spotify icon inside the configured icon directory. */
    function DefaultThumbnail(): (r: string)
      ensures |r| > |iconBase| && r[..|iconBase|] == iconBase && r[|iconBase|] == '/'
      ensures r[|iconBase| + 1..] == DefaultIconName
      ensures Basename(r) == DefaultIconName
    {
      var r := iconBase + "/" + DefaultIconName;
      JoinParts(iconBase, DefaultIconName);
      BasenameOfJoin(iconBase, DefaultIconName);
      r
    }

    /**
     * `thumbnail`: the `thumbnail_uri` field when it is true, which is exactly when a new
     * local copy was written, and the default icon otherwise.
     */
    method Thumbnail(source: Option<string>) returns (r: string)
      requires Valid()
      modifies slot, files
      ensures Valid()
      ensures var t := FieldResult(old(slot.data), old(files.paths), source, "thumbnail_uri");
              r == (if t.Some? then t.value else DefaultThumbnail())
      ensures slot.data == (if HasValue(source) then Recall(old(slot.data), source.value) else old(slot.data))
      ensures slot.fetches == old(slot.fetches) + (if HasValue(source) && old(slot.data).None? then 1 else 0)
      ensures var t := FieldResult(old(slot.data), old(files.paths), source, "thumbnail_uri");
              if t.Some? then
                files.paths == old(files.paths) + {TrimTrailingSlashes(destination)} + {TrimTrailingSlashes(t.value)}
                && files.downloads == old(files.downloads) + 1
                && files.writes == old(files.writes) + 1
              else unchanged(files)
    {
      var image := GetField(source, "thumbnail_uri");
      if image.Some? && IsTruthy(image.value) {
        return image.value;
      }
      return DefaultThumbnail();
    }

    /**
     * A `uri` field is the canonical URI of the resource the source URL denotes, and it
     * does not depend on what the oEmbed data holds, as long as that data is true.
     */
    lemma UriFieldSound(held: Option<OEmbedData>, paths: set<string>, source: Option<string>)
      ensures var r := FieldResult(held, paths, source, "uri");
              r.Some? ==> exists res :: Fits(source.value, res) && r.value == CanonicalUri(res)
      ensures HasValue(source) && HasData(Recall(held, source.value)) ==>
              FieldResult(held, paths, source, "uri") == ResolveUri(source.value)
    {
      if HasValue(source) && ResolveUri(source.value).Some? {
        ResolveUriSound(source.value);
      }
    }

    /** Every URL of one of the three shapes yields its canonical URI once the data is true. */
    lemma UriFieldComplete(held: Option<OEmbedData>, paths: set<string>, url: string, res: Resource)
      requires Fits(url, res)
      ensures HasData(Recall(held, url)) ==>
              FieldResult(held, paths, Some(url), "uri") == Some(CanonicalUri(res))
    {
      ResolveUriComplete(url, res);
    }

    /**
     * A thumbnail field is a fresh path inside the destination directory that keeps the
     * remote file's name; no other field names a path to write.
     */
    lemma ThumbnailFieldFresh(held: Option<OEmbedData>, paths: set<string>, source: Option<string>)
      ensures var r := FieldResult(held, paths, source, "thumbnail_uri");
              r.Some? ==>
                var data := Recall(held, source.value).value;
                "thumbnail_url" in data && TrimTrailingSlashes(r.value) !in paths
                && r.value[..|destination|] == destination && r.value[|destination|] == '/'
                && (Basename(data["thumbnail_url"]) != [] ==> Basename(r.value) == Basename(data["thumbnail_url"]))
      ensures forall name | name != "thumbnail_uri" :: Written(held, paths, source, name).None?
    {
    }

    /** A `uri` field, when there is one, is a true string, so a caller keeps it. */
    lemma UriFieldTruthy(held: Option<OEmbedData>, paths: set<string>, source: Option<string>)
      ensures var r := FieldResult(held, paths, source, "uri");
              r.Some? ==> IsTruthy(r.value)
    {
      var r := FieldResult(held, paths, source, "uri");
      if r.Some? {
        ResolveUriSound(source.value);
        var res :| Fits(source.value, res) && r.value == CanonicalUri(res);
        assert r.value[0] == 's';
      }
    }

    /**
     * Asking for the `uri` field again, for the same source, gives the same answer: the
     * memo either holds data already or the repeated request fails as the first did, and
     * the file system plays no part.
     */
    lemma UriFieldStable(held: Option<OEmbedData>, paths: set<string>, later: set<string>,
                         source: Option<string>)
      requires HasValue(source)
      ensures FieldResult(Recall(held, source.value), later, source, "uri")
              == FieldResult(held, paths, source, "uri")
    {
      assert Recall(Recall(held, source.value), source.value) == Recall(held, source.value);
    }

    /**
     * A thumbnail is written at most once per path: once the copy exists, asking again
     * for the same source gives FALSE, and `thumbnail` then falls back to the default icon.
     */
    lemma ThumbnailOnlyOnce(held: Option<OEmbedData>, paths: set<string>, source: Option<string>)
      ensures var t := FieldResult(held, paths, source, "thumbnail_uri");
              t.Some? ==>
                var later := paths + {TrimTrailingSlashes(destination)} + {TrimTrailingSlashes(t.value)};
                FieldResult(Recall(held, source.value), later, source, "thumbnail_uri").None?
    {
    }

    /**
     * A remote thumbnail whose base name is empty (an empty URL, or one made of slashes)
     * names the destination directory itself, followed by a slash. Once that directory
     * exists, `file_exists` is true for it, so nothing is written and the field is FALSE.
     */
    lemma EmptyNameFindsDirectory(data: OEmbedData, paths: set<string>)
      requires "thumbnail_url" in data && Basename(data["thumbnail_url"]) == []
      requires TrimTrailingSlashes(destination) in paths
      ensures LocalUri(destination, data["thumbnail_url"]) == destination + "/"
      ensures NewThumbnail(data, paths).None?
    {
      var local := LocalUri(destination, data["thumbnail_url"]);
      assert local == destination + "/";
      TrimAppendedSlash(destination);
    }

    /** After data has been stored, every later call returns it, whatever its URL. */
    lemma MemoSticky(held: Option<OEmbedData>, first: string, later: string)
      requires Recall(held, first).Some?
      ensures Recall(Recall(held, first), later) == Recall(held, first)
    {
    }
  }
}
