/**
 * Concrete URLs for the resolver: the three sample URLs of the module's web test
 * (src/Tests/SpotifyEmbedFormatterTest.php) and the edge cases around them. Each URL is
 * written as the base literal followed by its path, e.g. `HttpsOpen + "track/" + TrackId`
 * is https://open.spotify.com/track/298gs9ATwr2rD9tGYJKlQR.
 */
module SpotifyUriExamples {
  import opened Wrappers
  import opened SpotifyUri

  const TrackId := "298gs9ATwr2rD9tGYJKlQR"
  const AlbumId := "2ODvWsOgouMbaA5xf0RkJe"
  const PlaylistUser := "spotify"
  const PlaylistId := "3rgsDhGHZxZ9sB9DQWQfuf"

  lemma SampleIdsAreWords()
    ensures IsWord(TrackId) && IsWord(AlbumId) && IsWord(PlaylistUser) && IsWord(PlaylistId)
  {
    assert IsWord(TrackId);
    assert IsWord(AlbumId);
  }

  lemma BaseLiterals()
    ensures IsBase(HttpOpen) && IsBase(HttpsOpen) && IsBase(HttpsPlay)
  {
    assert CiEq(HttpOpen, HttpOpen);
    assert CiEq(HttpsOpen, HttpsOpen);
    assert CiEq(HttpsPlay, HttpsPlay);
  }

  /** The track URL of the web test resolves to its track URI. */
  lemma SampleTrack()
    ensures ResolveUri(HttpsOpen + "track/" + TrackId) == Some("spotify:track:" + TrackId)
  {
    SampleIdsAreWords();
    BaseLiterals();
    SingleIntro(HttpsOpen + "track/" + TrackId, "track/", HttpsOpen, "track/", TrackId, "");
    ResolveUriComplete(HttpsOpen + "track/" + TrackId, Track(TrackId));
  }

  /** The album URL of the web test resolves to its album URI. */
  lemma SampleAlbum()
    ensures ResolveUri(HttpsPlay + "album/" + AlbumId) == Some("spotify:album:" + AlbumId)
  {
    SampleIdsAreWords();
    BaseLiterals();
    SingleIntro(HttpsPlay + "album/" + AlbumId, "album/", HttpsPlay, "album/", AlbumId, "");
    ResolveUriComplete(HttpsPlay + "album/" + AlbumId, Album(AlbumId));
  }

  /** The playlist URL of the web test resolves to its playlist URI. */
  lemma SamplePlaylist()
    ensures ResolveUri(HttpsOpen + "user/" + PlaylistUser + "/playlist/" + PlaylistId)
         == Some("spotify:user:" + PlaylistUser + ":playlist:" + PlaylistId)
  {
    SampleIdsAreWords();
    BaseLiterals();
    var url := HttpsOpen + "user/" + PlaylistUser + "/playlist/" + PlaylistId;
    assert url == HttpsOpen + ("user/" + (PlaylistUser + ("/playlist/" + (PlaylistId + ""))));
    PlaylistIntro(url, HttpsOpen, "user/", PlaylistUser, "/playlist/", PlaylistId, "");
    ResolveUriComplete(url, Playlist(PlaylistUser, PlaylistId));
  }

  /** Scheme, host and path literals match in any case; the id is copied as written. */
  lemma MixedCaseLiterals()
    ensures ResolveUri("HTTPS://Play.Spotify.COM/" + "ALBUM/" + AlbumId) == Some("spotify:album:" + AlbumId)
  {
    SampleIdsAreWords();
    UpperCaseBase();
    assert CiEq("ALBUM/", "album/");
    var url := "HTTPS://Play.Spotify.COM/" + "ALBUM/" + AlbumId;
    SingleIntro(url, "album/", "HTTPS://Play.Spotify.COM/", "ALBUM/", AlbumId, "");
    ResolveUriComplete(url, Album(AlbumId));
  }

  lemma UpperCaseBase()
    ensures CiEq("HTTPS://Play.Spotify.COM/", HttpsPlay)
  {
  }

  /** PCRE's `$` lets one final newline through; the newline is not part of the id. */
  lemma TrailingNewline()
    ensures ResolveUri(HttpOpen + "track/" + TrackId + "\n") == Some("spotify:track:" + TrackId)
  {
    SampleIdsAreWords();
    BaseLiterals();
    var url := HttpOpen + "track/" + TrackId + "\n";
    SingleIntro(url, "track/", HttpOpen, "track/", TrackId, "\n");
    ResolveUriComplete(url, Track(TrackId));
  }

  /** A trailing slash, an empty id and a query string are rejected. */
  lemma RejectedEndings()
    ensures ResolveUri(HttpsOpen + "track/" + TrackId + "/").None?
    ensures ResolveUri(HttpsOpen + "track/").None?
    ensures ResolveUri(HttpsOpen + "track/" + TrackId + "?" + "si=1").None?
  {
    ResolveUriTrailingSlash(HttpsOpen + "track/" + TrackId);
    ResolveUriTrailingSlash(HttpsOpen + "track");
    assert HttpsOpen + "track" + "/" == HttpsOpen + "track/";
    ResolveUriQueryOrFragment(HttpsOpen + "track/" + TrackId, '?', "si=1");
  }

  /** A segment after the id is rejected. */
  lemma RejectedExtraSegment()
    ensures ResolveUri(HttpsOpen + "track/" + TrackId + "/" + "extra").None?
  {
    SampleIdsAreWords();
    BaseLiterals();
    ResolveUriExtraSegment(HttpsOpen, "track/", TrackId, "extra");
  }
}
