# Spotify media type for Drupal media entities, in Dafny

This project models the core of the `media_entity_spotify` Drupal module and proves
properties of that model. The core has two parts.

- **The Spotify media type plugin.** It provides three fields of a media item: the oEmbed
  `html`, a locally cached `thumbnail_uri`, and the canonical Spotify `uri`. It also chooses
  the thumbnail of the media item.
- **The `spotify_embed` field formatter.** It has default settings and a summary of its
  settings, and it builds the render array of embedded players.

The model has six modules:

- `Wrappers` (`wrappers.dfy`): the `Option` type that stands for a PHP value or FALSE/NULL.

- `SpotifyUri` (`uri.dfy`): the `uri` field. A URL is resolved to `spotify:track:<id>`,
  `spotify:user:<user>:playlist:<id>` or `spotify:album:<id>`.
  - The three regular expressions are tried in the source's order.
  - The matchers work as the regular-expression engine consumes the URL. `ResolveUri` is
    proved equal to a declarative reading of the patterns (`Fits`) in both directions.
  - The three shapes are proved mutually exclusive, so the order in which they are tried
    does not change the result.
  - The model follows PCRE exactly where it matters:
    - `/i` makes the literal parts case-insensitive in ASCII.
    - `[\w\d]` is ASCII letters, digits and `_`.
    - The captured ids are copied as they are.
    - `$` without the `D` modifier also accepts one trailing newline.
- `SpotifyUriExamples` (`uri_examples.dfy`): the three sample URLs of the module's web test,
  plus mixed case, a trailing newline and the rejected forms around them.
- `PathName` (`path.dfy`): PHP's `pathinfo(..., PATHINFO_BASENAME)` on `/`-separated text.
  It names the local copy of a thumbnail. It also trims the slashes at the end of a path,
  which is how the file system model compares paths.
- `SpotifyMedia` (`spotify.dfy`): the plugin.
  - `StaticSlot` is the `drupal_static` slot behind the oEmbed memo. It is keyed by the
    function name, not by the URL, so plugins that share it share its data. Its invariant is
    that data is stored at most once.
  - `FileSystem` is the set of existing paths, with ghost counts of downloads and writes.
    Paths are kept without their trailing slashes, so `dir/` exists once `dir` does.
  - `Spotify` holds the request function and the two configured directories.
  - Each method is specified by a function of the state before the call (`Recall`,
    `NewThumbnail`, `FieldResult`). Lemmas about those functions state the properties.
- `EmbedFormatter` (`formatter.dfy`): PHP's left-biased array union, `defaultSettings`,
  `settingsSummary`, and the `viewElements` loop over the field items.

PHP values are modelled as follows:

- FALSE and NULL are both `None`.
- A string is true unless it is `""` or `"0"`.
- A decoded oEmbed response is true unless it is NULL or the empty array.
- An empty array is still "set", so the memo keeps it.
- A response that does not decode leaves the slot unset, so the next call requests again.

Two behaviours of the code are easy to misread, and the model follows the code in both:

- The id and user class `[\w\d]` admits `_` as well as ASCII letters and digits.
- An existing local copy of the thumbnail is not returned. When the file already exists,
  `getField` falls through to the `return FALSE` at `Spotify.php:141`, so `thumbnail()` falls
  back to the default icon (`ThumbnailOnlyOnce`).

## Model

| member | source | states |
|---|---|---|
| SpotifyUri.BaseLength | src/Plugin/MediaEntity/Type/Spotify.php:144 | A prefix it reports is one of http or https, then `://`, then open or play, then `.spotify.com/`, up to ASCII case. |
| SpotifyUri.WordRun | src/Plugin/MediaEntity/Type/Spotify.php:150 | The greedy `[\w\d]+` before `/playlist/` takes exactly the maximal run of word characters. |
| SpotifyUri.BaseLengthOf | src/Plugin/MediaEntity/Type/Spotify.php:144 | Any of the four base prefixes, in any case, is recognised whatever follows it. |
| SpotifyUri.IdAtEndOf | src/Plugin/MediaEntity/Type/Spotify.php:144 | A word followed by nothing or by one newline is captured as the id, without the newline. |
| SpotifyUri.IdAtEndSound | src/Plugin/MediaEntity/Type/Spotify.php:144 | A captured id is a word, and the text is that id followed by nothing or by one newline. |
| SpotifyUri.WordRunOf | src/Plugin/MediaEntity/Type/Spotify.php:150 | A word followed by a non-word character is taken whole as the user. |
| SpotifyUri.IdAtEnd | src/Plugin/MediaEntity/Type/Spotify.php:144 | `([\w\d]+)$` against the rest of the URL: a capture is a word, and the rest is that word alone or that word plus one newline. `IdAtEndOf` and `IdAtEndSound` state it in both directions. |
| SpotifyUri.MatchSingle | src/Plugin/MediaEntity/Type/Spotify.php:144-156 | The one-id pattern after a base: a capture is a word, and the URL begins with a base. `MatchSingleSound` and `MatchSingleComplete` tie it to the pattern. |
| SpotifyUri.MatchTrack | src/Plugin/MediaEntity/Type/Spotify.php:144 | The track pattern: a captured track id is a word. |
| SpotifyUri.UserPlaylist | src/Plugin/MediaEntity/Type/Spotify.php:150 | The path after `user/`: both captures are words. `UserPlaylistSound` and `UserPlaylistComplete` tie it to the pattern. |
| SpotifyUri.MatchPlaylist | src/Plugin/MediaEntity/Type/Spotify.php:150 | The playlist pattern: the user and the id are words, and the URL begins with a base. `MatchPlaylistSound` and `MatchPlaylistComplete` tie it to the pattern. |
| SpotifyUri.MatchAlbum | src/Plugin/MediaEntity/Type/Spotify.php:156 | The album pattern: a captured album id is a word. |
| SpotifyUri.ResolveUri | src/Plugin/MediaEntity/Type/Spotify.php:142-161 | A result begins with `spotify:`. The result is FALSE exactly when none of the three patterns matches. `ResolveUriSound`, `ResolveUriComplete` and `ResolveUriNone` relate it to the patterns. |
| SpotifyUri.MatchersExclusive | src/Plugin/MediaEntity/Type/Spotify.php:144-159 | At most one of the track, playlist and album matchers accepts a URL. |
| SpotifyUri.MatchSingleSound | src/Plugin/MediaEntity/Type/Spotify.php:144-145 | What the one-id matcher accepts fits its pattern, with the returned id as the capture. |
| SpotifyUri.MatchSingleComplete | src/Plugin/MediaEntity/Type/Spotify.php:144-145 | Every URL that fits a one-id pattern is accepted, with its own id. |
| SpotifyUri.UserPlaylistSound | src/Plugin/MediaEntity/Type/Spotify.php:150 | The path after the base splits as user, `/playlist/` in any case, id and an allowed ending. |
| SpotifyUri.UserPlaylistComplete | src/Plugin/MediaEntity/Type/Spotify.php:150 | Every such path gives back both captures. |
| SpotifyUri.MatchPlaylistSound | src/Plugin/MediaEntity/Type/Spotify.php:150-151 | What the playlist matcher accepts fits the playlist pattern with the two captures. |
| SpotifyUri.MatchPlaylistComplete | src/Plugin/MediaEntity/Type/Spotify.php:150-151 | Every URL that fits the playlist pattern is accepted with its user and id. |
| SpotifyUri.ResolveUriSound | src/Plugin/MediaEntity/Type/Spotify.php:142-161 | A resolved URI is the canonical URI of a resource whose pattern the URL fits. |
| SpotifyUri.FitsMatchers | src/Plugin/MediaEntity/Type/Spotify.php:144-159 | A URL that fits a resource's pattern is accepted by that resource's matcher only. |
| SpotifyUri.ResolveUriComplete | src/Plugin/MediaEntity/Type/Spotify.php:144-159 | A track, playlist or album URL resolves to `spotify:track:<id>`, `spotify:user:<user>:playlist:<id>` or `spotify:album:<id>`, with the captures copied as they are. |
| SpotifyUri.ResolveUriNone | src/Plugin/MediaEntity/Type/Spotify.php:161 | The result is FALSE exactly when the URL fits none of the three patterns. |
| SpotifyUri.FitsUnique | src/Plugin/MediaEntity/Type/Spotify.php:144-159 | A URL fits at most one resource, so the order of the three tests does not matter. |
| SpotifyUri.ResolvedLayout | src/Plugin/MediaEntity/Type/Spotify.php:144-159 | A resolved URL is a base, then a path of URL characters, then a word id, then an allowed ending. |
| SpotifyUri.ResolveUriAlphabet | src/Plugin/MediaEntity/Type/Spotify.php:144-161 | A URL holding any character outside the patterns' alphabet is not resolved. |
| SpotifyUri.ResolveUriEnding | src/Plugin/MediaEntity/Type/Spotify.php:144-161 | A resolved URL ends in a word character, or in one newline after a word character. |
| SpotifyUri.ResolveUriHost | src/Plugin/MediaEntity/Type/Spotify.php:144-161 | A resolved URL begins with http or https, then open or play, then `.spotify.com/`; every other host is rejected. |
| SpotifyUri.ResolveUriTrailingSlash | src/Plugin/MediaEntity/Type/Spotify.php:144-161 | No URL ending in a slash is resolved. |
| SpotifyUri.ResolveUriQueryOrFragment | src/Plugin/MediaEntity/Type/Spotify.php:144-161 | No URL followed by a query string or a fragment is resolved. |
| SpotifyUri.ResolveUriExtraSegment | src/Plugin/MediaEntity/Type/Spotify.php:144-161 | A track or album URL with one more path segment is not resolved. |
| SpotifyUri.IdAtEndSlash | src/Plugin/MediaEntity/Type/Spotify.php:144 | An id followed by a slash and anything else is not captured. |
| SpotifyUriExamples.SampleTrack | src/Tests/SpotifyEmbedFormatterTest.php:162 | The test's track URL resolves to `spotify:track:298gs9ATwr2rD9tGYJKlQR`. |
| SpotifyUriExamples.SampleAlbum | src/Tests/SpotifyEmbedFormatterTest.php:163 | The test's `play.` album URL resolves to `spotify:album:2ODvWsOgouMbaA5xf0RkJe`. |
| SpotifyUriExamples.SamplePlaylist | src/Tests/SpotifyEmbedFormatterTest.php:164 | The test's playlist URL resolves to `spotify:user:spotify:playlist:3rgsDhGHZxZ9sB9DQWQfuf`. |
| SpotifyUriExamples.MixedCaseLiterals | src/Plugin/MediaEntity/Type/Spotify.php:156-158 | `HTTPS://Play.Spotify.COM/ALBUM/<id>` resolves, and the id keeps its case. |
| SpotifyUriExamples.TrailingNewline | src/Plugin/MediaEntity/Type/Spotify.php:144-146 | A track URL followed by one newline resolves, without the newline. |
| SpotifyUriExamples.RejectedEndings | src/Plugin/MediaEntity/Type/Spotify.php:144-161 | A trailing slash, an empty id and a query string each give FALSE. |
| SpotifyUriExamples.RejectedExtraSegment | src/Plugin/MediaEntity/Type/Spotify.php:144-161 | `/track/<id>/extra` gives FALSE. |
| PathName.TrimAppendedSlash | src/Plugin/MediaEntity/Type/Spotify.php:129-132 | `dir/` and `dir` trim to the same path, so they name the same file system entry. |
| PathName.TrimTrailingSlashes | src/Plugin/MediaEntity/Type/Spotify.php:129 | The result is a prefix without a final slash, and only slashes were removed. |
| PathName.LastSegment | src/Plugin/MediaEntity/Type/Spotify.php:129 | The result is the longest slash-free suffix. |
| PathName.Basename | src/Plugin/MediaEntity/Type/Spotify.php:129 | A base name contains no slash. |
| PathName.BasenameOfJoin | src/Plugin/MediaEntity/Type/Spotify.php:129 | The base name of `dir/name` is `name`, for a non-empty slash-free name. |
| PathName.BasenameIdempotent | src/Plugin/MediaEntity/Type/Spotify.php:129 | Taking the base name twice gives the same result as taking it once. |
| SpotifyMedia.LocalUri | src/Plugin/MediaEntity/Type/Spotify.php:128-129 | The local path is the destination, then one slash, then exactly the remote file's base name, which may be empty. It is a true string, and its own base name is the remote one when that is not empty. |
| SpotifyMedia.StaticSlot.constructor | src/Plugin/MediaEntity/Type/Spotify.php:219 | A new slot is unset, and no request has been made through it. |
| SpotifyMedia.FileSystem.constructor | src/Plugin/MediaEntity/Type/Spotify.php:132 | The starting paths are kept with their trailing slashes trimmed, so each of them, `dir/` included, exists. |
| SpotifyMedia.SlashedDirectoryFound | src/Plugin/MediaEntity/Type/Spotify.php:132 | A file system that starts with `d/` finds both `d/` and `d`. |
| SpotifyMedia.FileSystem.Exists | src/Plugin/MediaEntity/Type/Spotify.php:132 | `file_exists`: a path exists when it is present with its trailing slashes ignored. |
| SpotifyMedia.FileSystem.ExistsWithSlash | src/Plugin/MediaEntity/Type/Spotify.php:129-132 | A path and the same path with a slash appended exist together, as a directory and `dir/` do. |
| SpotifyMedia.FileSystem.PrepareDirectory | src/Plugin/MediaEntity/Type/Spotify.php:133 | The destination directory exists afterwards. |
| SpotifyMedia.FileSystem.Download | src/Plugin/MediaEntity/Type/Spotify.php:135 | One download is made, and no path changes. |
| SpotifyMedia.FileSystem.Save | src/Plugin/MediaEntity/Type/Spotify.php:136 | The path exists afterwards, and one write is made. |
| SpotifyMedia.Spotify.Recall | src/Plugin/MediaEntity/Type/Spotify.php:219-227 | A slot holding data answers with that data, whatever the URL. |
| SpotifyMedia.Spotify.OEmbed | src/Plugin/MediaEntity/Type/Spotify.php:218-228 | An unset slot is filled with the response to the endpoint followed by the URL, with exactly one request. A set slot is returned unchanged, with no request. Data is stored at most once. |
| SpotifyMedia.Spotify.MemoSticky | src/Plugin/MediaEntity/Type/Spotify.php:219-227 | Once data is stored, every later call returns it, for any URL. |
| SpotifyMedia.Spotify.NewThumbnail | src/Plugin/MediaEntity/Type/Spotify.php:127-141 | A thumbnail path is produced exactly when the response has `thumbnail_url` and no file exists at its local path; that path is then the result. |
| SpotifyMedia.Spotify.ThumbnailUri | src/Plugin/MediaEntity/Type/Spotify.php:127-141 | There are three cases. With no `thumbnail_url`, the result is FALSE and nothing is touched. With the local file absent, the directory and the file are created, one download and one write are made, and the path is returned. With the file present, the result is FALSE and nothing is touched. |
| SpotifyMedia.Spotify.FieldResult | src/Plugin/MediaEntity/Type/Spotify.php:122-165 | With no true source URL, no true oEmbed data, or an unknown field name, every field is FALSE. |
| SpotifyMedia.Spotify.GetField | src/Plugin/MediaEntity/Type/Spotify.php:121-166 | The value is `FieldResult` of the state before the call. The memo is consulted only when the URL is true. Only a `thumbnail_uri` call that returns a path changes the file system. |
| SpotifyMedia.Spotify.UriFieldSound | src/Plugin/MediaEntity/Type/Spotify.php:122-161 | A `uri` field is the canonical URI of the resource the URL denotes. When the data is true, the field equals the resolver's result; the data's content does not matter. |
| SpotifyMedia.Spotify.UriFieldComplete | src/Plugin/MediaEntity/Type/Spotify.php:122-161 | Every track, playlist or album URL gives its canonical URI once the oEmbed data is true. |
| SpotifyMedia.Spotify.UriFieldTruthy | src/Plugin/MediaEntity/Type/Spotify.php:142-161 | A `uri` field, when present, is a true string. |
| SpotifyMedia.Spotify.UriFieldStable | src/Plugin/MediaEntity/Type/Spotify.php:219-227 | Asking again for the same source's `uri` gives the same answer, whatever the file system holds. |
| SpotifyMedia.Spotify.ThumbnailFieldFresh | src/Plugin/MediaEntity/Type/Spotify.php:127-139 | A thumbnail field is a path not yet present, inside the destination directory, that keeps the remote file's name. No other field names a path to write. |
| SpotifyMedia.Spotify.EmptyNameFindsDirectory | src/Plugin/MediaEntity/Type/Spotify.php:127-141 | A `thumbnail_url` with an empty base name gives the local path `<destination>/`. Once the destination directory exists, that path exists, so the field is FALSE and nothing is written. |
| SpotifyMedia.Spotify.ThumbnailOnlyOnce | src/Plugin/MediaEntity/Type/Spotify.php:132-141 | Once the copy is written, asking again for the same source gives FALSE. |
| SpotifyMedia.Spotify.DefaultThumbnail | src/Plugin/MediaEntity/Type/Spotify.php:205-207 | The default is the icon directory, then one slash, then exactly `spotify.png`. |
| SpotifyMedia.Spotify.Thumbnail | src/Plugin/MediaEntity/Type/Spotify.php:194-200 | The result is the new local copy when one was written, and the default icon otherwise. The memo and the file system change as in `GetField`. |
| EmbedFormatter.ArrayUnion | src/Plugin/Field/FieldFormatter/SpotifyEmbedFormatter.php:34 | The union has the keys of both operands, and the left operand's value wins on a collision. |
| EmbedFormatter.DefaultSettings | src/Plugin/Field/FieldFormatter/SpotifyEmbedFormatter.php:28-35 | The defaults are theme `dark`, view `list`, width `300px` and height `380px`, whatever the parent's are. Every other parent setting is kept, and nothing else is added. |
| EmbedFormatter.SettingsSummary | src/Plugin/Field/FieldFormatter/SpotifyEmbedFormatter.php:93-109 | The summary has exactly four lines: theme, view, width and height, in that order. Each line is its label followed by the setting's value, so dropping the label gives the value back. |
| EmbedFormatter.SummaryOfDefaults | src/Plugin/Field/FieldFormatter/SpotifyEmbedFormatter.php:93-109 | Under the defaults, the summary reads `Theme: dark`, `View: list`, `Width: 300px`, `Height: 380px`. |
| EmbedFormatter.Setting | src/Plugin/Field/FieldFormatter/SpotifyEmbedFormatter.php:127-130 | `getSetting`: a setting has a value exactly when its key is present, and that value is the stored one. |
| EmbedFormatter.Embed | src/Plugin/Field/FieldFormatter/SpotifyEmbedFormatter.php:124-131 | One element: the `media_spotify_embed` theme, the URI, and the width, height, theme and view settings. `Rendered` and `ViewElements` state that every element is this one. |
| EmbedFormatter.Rendered | src/Plugin/Field/FieldFormatter/SpotifyEmbedFormatter.php:122-132 | A delta has an element exactly when it is an item's delta and there is a URI. Every element carries that URI and the settings. |
| EmbedFormatter.ViewElements | src/Plugin/Field/FieldFormatter/SpotifyEmbedFormatter.php:115-137 | Without the Spotify plugin, the render array is empty. Otherwise it is `Rendered` of the item count, the `uri` field of the starting state and the settings. The memo is consulted once per item with the exact request count, and no file is touched. |

## Left out

- `buildConfigurationForm` and `settingsForm`: they build admin forms on the host's field
  manager and translation.
- `__construct`, `create` and the plugin annotations: dependency injection and discovery
  belong to the host. Each service the core uses becomes a field of the plugin:
  - the HTTP client and JSON decoding become the function `fetch`;
  - the two configuration values become `destination` and `iconBase`;
  - the static cache becomes `slot`;
  - the file functions become `files`.
- The HTTP transport: `fetch` is a fixed function of the request URL, so a repeated request
  gets the same answer as the first.
  - `SpotifyMedia.Spotify.UriFieldStable` and the all-or-nothing key set of
    `EmbedFormatter.ViewElements` rely on this. In the code, a response that does not decode
    leaves the memo unset; a later item's request may then succeed, and only the later deltas
    would get elements.
  - Exceptions from the HTTP client are not modelled, whatever their cause: HTTP errors,
    connection failures or time-outs. Such an exception leaves `getField` and
    `viewElements` without any result, FALSE included.
  - The request URL is the endpoint followed by the media URL, unencoded, as in the code.
- JSON decoding: values are taken as strings. Numbers, booleans and nested values in the
  response are not modelled.
- Path resolution: paths are compared with only their trailing slashes trimmed. `//`, `.`
  and `..` inside a path are not normalised. Files and directories are not told apart, so
  `file/` is taken to exist when the regular file `file` does.
- File contents, permissions and failures: the code ignores the results of
  `file_prepare_directory`, `file_get_contents` and `file_unmanaged_save_data`, so the model
  lets each of them succeed.
- `getMediaUrl`: reading the entity's source field is host entity API. Its result is the
  `source` input, None when there is none.
- The PHP notice for a missing `html` member: the model returns None, which is what PHP
  returns after the notice.
- Translation and HTML escaping in `settingsSummary`: a line is its English label followed by
  the raw value, and a missing setting is shown as the empty string.
- `getSetting`'s merging of the defaults: this happens in the host's base class. The
  `settings` passed to the formatter are the merged ones.
- The order of keys in PHP arrays: the settings and the render array are maps. Their keys are
  the same; the summary stays a sequence.
- Field items: `viewElements` reads only their deltas, `0` to `itemCount - 1`, and never
  their values.
- Concurrency: two requests downloading the same thumbnail at once are not modelled.
- The web test in `src/Tests/SpotifyEmbedFormatterTest.php` is not part of this model. Only
  its three sample URLs are used, in `SpotifyUriExamples`.
