/**
 * The URL-to-URI resolver of the Spotify media type (the `uri` field).
 *
 * Three anchored, case-insensitive PCRE patterns are tried in turn:
 *   track     ^https?://(?:open|play)\.spotify\.com/track/([\w\d]+)$
 *   playlist  ^https?://(?:open|play)\.spotify\.com/user/([\w\d]+)/playlist/([\w\d]+)$
 *   album     ^https?://(?:open|play)\.spotify\.com/album/([\w\d]+)$
 * The `/i` flag makes the literal letters match in either case; the captured ids are
 * copied verbatim. `$` is PCRE's `$` without the `D` modifier: it matches at the end of
 * the subject or just before one final newline.
 */
module SpotifyUri {
  import opened Wrappers

  // ---------------------------------------------------------------------------
  // Character classes and case-insensitive literals

  /** ASCII lower-casing, the case folding PCRE applies under `/i` outside UTF mode. */
  function Lower(c: char): char {
    if 'A' <= c <= 'Z' then (c as int + 32) as char else c
  }

  /** `\w` (and so `[\w\d]`): ASCII letters, digits and underscore. */
  predicate IsWordChar(c: char) {
    ('a' <= c <= 'z') || ('A' <= c <= 'Z') || ('0' <= c <= '9') || c == '_'
  }

  /** Text matched by `[\w\d]+`. */
  predicate IsWord(s: string) {
    |s| > 0 && forall i | 0 <= i < |s| :: IsWordChar(s[i])
  }

  /** `s` equals the literal `lit` up to ASCII case. */
  predicate CiEq(s: string, lit: string) {
    |s| == |lit| && forall i | 0 <= i < |s| :: Lower(s[i]) == Lower(lit[i])
  }

  /** What PCRE's `$` (without `D`) lets follow the last capture: nothing or one newline. */
  predicate IsEnd(e: string) {
    e == "" || e == "\n"
  }

  const HttpOpen := "http://open.spotify.com/"
  const HttpsOpen := "https://open.spotify.com/"
  const HttpPlay := "http://play.spotify.com/"
  const HttpsPlay := "https://play.spotify.com/"

  /** Text matched by `https?://(?:open|play)\.spotify\.com/` under `/i`. */
  predicate IsBase(p: string) {
    CiEq(p, HttpOpen) || CiEq(p, HttpsOpen) || CiEq(p, HttpPlay) || CiEq(p, HttpsPlay)
  }

  // ---------------------------------------------------------------------------
  // What the three patterns accept, stated declaratively

  /** The three kinds of Spotify resource the resolver recognises. */
  datatype Resource = Track(id: string) | Playlist(user: string, id: string) | Album(id: string)

  /** The canonical URI built for a resource. */
  function CanonicalUri(r: Resource): string {
    match r
    case Track(id) => "spotify:track:" + id
    case Playlist(user, id) => "spotify:user:" + user + ":playlist:" + id
    case Album(id) => "spotify:album:" + id
  }

  /** `url` is matched by the pattern of `r`, with `r`'s fields as the captured groups. */
  ghost predicate Fits(url: string, r: Resource) {
    match r
    case Track(id) => FitsSingle(url, "track/", id)
    case Playlist(user, id) => FitsPlaylist(url, user, id)
    case Album(id) => FitsSingle(url, "album/", id)
  }

  /** `url` is matched by the playlist pattern, capturing `user` and `id`. */
  ghost predicate FitsPlaylist(url: string, user: string, id: string) {
    exists p, t, m, e :: PlaylistParts(p, t, user, m, id, e) && url == p + (t + user + m) + id + e
  }

  /** The pieces of a playlist URL, each matched by its part of the pattern. */
  predicate PlaylistParts(p: string, t: string, user: string, m: string, id: string, e: string) {
    IsBase(p) && CiEq(t, "user/") && IsWord(user) && CiEq(m, "/playlist/") && IsWord(id) && IsEnd(e)
  }

  /** `url` is matched by `^https?://(?:open|play)\.spotify\.com/<lit>([\w\d]+)$`, capturing `id`. */
  ghost predicate FitsSingle(url: string, lit: string, id: string) {
    exists p, t, e :: IsBase(p) && CiEq(t, lit) && IsEnd(e) && IsWord(id) && url == p + t + id + e
  }

  // ---------------------------------------------------------------------------
  // The matchers, step by step as the regular-expression engine consumes the URL

  /** Length of the `https?://(?:open|play)\.spotify\.com/` prefix of `url`, if it has one. */
  function BaseLength(url: string): (n: Option<nat>)
    ensures n.Some? ==> n.value <= |url| && IsBase(url[..n.value])
  {
    if |url| >= |HttpOpen| && IsBase(url[..|HttpOpen|]) then Some(|HttpOpen|)
    else if |url| >= |HttpsOpen| && IsBase(url[..|HttpsOpen|]) then Some(|HttpsOpen|)
    else None
  }

  /** Length of the longest prefix of `s` made of `\w` characters (a greedy `[\w\d]+`). */
  function WordRun(s: string): (n: nat)
    ensures n <= |s|
    ensures forall i | 0 <= i < n :: IsWordChar(s[i])
    ensures n < |s| ==> !IsWordChar(s[n])
    decreases |s|
  {
    if |s| > 0 && IsWordChar(s[0]) then 1 + WordRun(s[1..]) else 0
  }

  /** `([\w\d]+)$` against the whole of `s`: the capture, if the group and `$` match. */
  function IdAtEnd(s: string): (r: Option<string>)
    ensures r.Some? ==> IsWord(r.value) && (s == r.value || s == r.value + "\n")
  {
    if IsWord(s) then Some(s)
    else if |s| > 0 && s[|s| - 1] == '\n' && IsWord(s[..|s| - 1]) then Some(s[..|s| - 1])
    else None
  }

  /** `<lit>([\w\d]+)$` after the base, for the one-id shapes `track/` and `album/`. */
  function MatchSingle(url: string, lit: string): (r: Option<string>)
    ensures r.Some? ==> IsWord(r.value) && BaseLength(url).Some?
  {
    match BaseLength(url)
    case None => None
    case Some(k) =>
      var rest := url[k..];
      if |rest| >= |lit| && CiEq(rest[..|lit|], lit) then IdAtEnd(rest[|lit|..]) else None
  }

  /** `track/([\w\d]+)$` after the base. */
  function MatchTrack(url: string): (r: Option<string>)
    ensures r.Some? ==> IsWord(r.value)
  {
    MatchSingle(url, "track/")
  }

  /** `user/([\w\d]+)/playlist/([\w\d]+)$` after the base: the user and the playlist id. */
  function MatchPlaylist(url: string): (r: Option<(string, string)>)
    ensures r.Some? ==> IsWord(r.value.0) && IsWord(r.value.1) && BaseLength(url).Some?
  {
    match BaseLength(url)
    case None => None
    case Some(k) =>
      var rest := url[k..];
      if |rest| >= 5 && CiEq(rest[..5], "user/") then UserPlaylist(rest[5..]) else None
  }

  /** `([\w\d]+)/playlist/([\w\d]+)$` against the whole of `s`: the two captures. */
  function UserPlaylist(s: string): (r: Option<(string, string)>)
    ensures r.Some? ==> IsWord(r.value.0) && IsWord(r.value.1)
  {
    var n := WordRun(s);
    if n > 0 && |s| >= n + 10 && CiEq(s[n..n + 10], "/playlist/") then
      match IdAtEnd(s[n + 10..])
      case Some(id) => Some((s[..n], id))
      case None => None
    else None
  }

  /** `album/([\w\d]+)$` after the base. */
  function MatchAlbum(url: string): (r: Option<string>)
    ensures r.Some? ==> IsWord(r.value)
  {
    MatchSingle(url, "album/")
  }

  /**
   * The `uri` field: the first of track, playlist and album that matches, as a canonical
   * URI; `None` (the source's FALSE) when none does.
   */
  function ResolveUri(url: string): (r: Option<string>)
    ensures r.Some? ==> |r.value| > 8 && r.value[..8] == "spotify:"
    ensures r.None? <==> MatchTrack(url).None? && MatchPlaylist(url).None? && MatchAlbum(url).None?
  {
    match MatchTrack(url)
    case Some(id) => Some("spotify:track:" + id)
    case None =>
      match MatchPlaylist(url)
      case Some((user, id)) => Some("spotify:user:" + user + ":playlist:" + id)
      case None =>
        match MatchAlbum(url)
        case Some(id) => Some("spotify:album:" + id)
        case None => None
  }

  // ---------------------------------------------------------------------------
  // The matchers agree with the declarative patterns

  /** The base prefix is found, whatever follows it (`https?` never backtracks). */
  lemma {:induction false} BaseLengthOf(p: string, x: string)
    requires IsBase(p)
    ensures BaseLength(p + x) == Some(|p|)
  {
    var url := p + x;
    assert url[..|p|] == p;
    if |p| == |HttpsOpen| {
      var q := url[..|HttpOpen|];
      assert Lower(p[4]) == 's';
      assert q[4] == p[4];
      assert !IsBase(q);
    }
  }

  /** `([\w\d]+)$` captures the id, with or without the one newline `$` tolerates. */
  lemma {:induction false} IdAtEndOf(id: string, e: string)
    requires IsWord(id) && IsEnd(e)
    ensures IdAtEnd(id + e) == Some(id)
  {
    if e == "\n" {
      var s := id + e;
      assert !IsWordChar(s[|s| - 1]);
      assert s[..|s| - 1] == id;
    } else {
      assert id + e == id;
    }
  }

  /** What `([\w\d]+)$` captures is a word, followed by at most one newline. */
  lemma {:induction false} IdAtEndSound(s: string) returns (id: string, e: string)
    requires IdAtEnd(s).Some?
    ensures IdAtEnd(s) == Some(id) && IsWord(id) && IsEnd(e) && s == id + e
  {
    id := IdAtEnd(s).value;
    if !IsWord(s) {
      e := "\n";
      assert s == s[..|s| - 1] + [s[|s| - 1]];
    } else {
      e := "";
      assert s == id + e;
    }
  }

  /** A greedy `[\w\d]+` stops exactly where the word ends when a non-word character follows. */
  lemma {:induction false} WordRunOf(u: string, x: string)
    requires IsWord(u) && |x| > 0 && !IsWordChar(x[0])
    ensures WordRun(u + x) == |u|
  {
    var s := u + x;
    assert forall i | 0 <= i < |u| :: s[i] == u[i];
    assert s[|u|] == x[0];
  }

  /** The literal after the base starts with `t`, `u` or `a`, so at most one matcher succeeds. */
  lemma {:induction false} MatchersExclusive(url: string)
    ensures MatchTrack(url).Some? ==> MatchPlaylist(url).None? && MatchAlbum(url).None?
    ensures MatchPlaylist(url).Some? ==> MatchAlbum(url).None?
  {
    match BaseLength(url)
    case None =>
    case Some(k) =>
      var rest := url[k..];
      if |rest| >= 6 && CiEq(rest[..6], "track/") {
        assert Lower(rest[0]) == 't' by { assert rest[..6][0] == rest[0]; }
      }
      if |rest| >= 5 && CiEq(rest[..5], "user/") {
        assert Lower(rest[0]) == 'u' by { assert rest[..5][0] == rest[0]; }
      }
      if |rest| >= 6 && CiEq(rest[..6], "album/") {
        assert Lower(rest[0]) == 'a' by { assert rest[..6][0] == rest[0]; }
      }
  }

  /** What the one-id matcher captures fits its pattern. */
  lemma {:induction false} MatchSingleSound(url: string, lit: string)
    requires MatchSingle(url, lit).Some?
    ensures FitsSingle(url, lit, MatchSingle(url, lit).value)
  {
    var p, t, s := MatchSingleSplit(url, lit);
    var id, e := IdAtEndSound(s);
    SingleIntro(url, lit, p, t, id, e);
  }

  /** Pieces that each fit their part of a one-id pattern make a URL of that shape. */
  lemma SingleIntro(url: string, lit: string, p: string, t: string, id: string, e: string)
    requires IsBase(p) && CiEq(t, lit) && IsWord(id) && IsEnd(e) && url == p + (t + (id + e))
    ensures FitsSingle(url, lit, id)
  {
    assert url == p + t + id + e;
  }

  /** The one-id matcher takes the base and the literal off the URL and matches the rest. */
  lemma MatchSingleSplit(url: string, lit: string) returns (p: string, t: string, s: string)
    requires MatchSingle(url, lit).Some?
    ensures IsBase(p) && CiEq(t, lit) && url == p + (t + s) && MatchSingle(url, lit) == IdAtEnd(s)
  {
    var k := BaseLength(url).value;
    var rest := url[k..];
    SplitTwice(url, k, |lit|);
    p, t, s := url[..k], rest[..|lit|], rest[|lit|..];
  }

  /** `url` is its first `k` elements, the next `j`, and the rest. */
  lemma SplitTwice(url: string, k: nat, j: nat)
    requires k + j <= |url|
    ensures url == url[..k] + (url[k..][..j] + url[k..][j..])
  {
    assert url[k..] == url[k..][..j] + url[k..][j..];
    assert url == url[..k] + url[k..];
  }

  /** A URL of the one-id shape is matched, and the id captured is exactly the one in it. */
  lemma {:induction false} MatchSingleComplete(url: string, lit: string, id: string)
    requires FitsSingle(url, lit, id)
    ensures MatchSingle(url, lit) == Some(id)
  {
    var p, t, e :| IsBase(p) && CiEq(t, lit) && IsEnd(e) && IsWord(id) && url == p + t + id + e;
    RegroupSingle(url, p, t, id, e);
    MatchSingleAfter(p, t + (id + e), lit);
    IdAtEndOf(id, e);
  }

  /** A one-id URL grouped as the matcher takes it apart, and its literal cut off again. */
  lemma RegroupSingle(url: string, p: string, t: string, id: string, e: string)
    requires url == p + t + id + e
    ensures url == p + (t + (id + e))
    ensures (t + (id + e))[..|t|] == t && (t + (id + e))[|t|..] == id + e
  {
    assert url == p + (t + (id + e));
  }

  /** The two captures of `([\w\d]+)/playlist/([\w\d]+)$` and the text around them. */
  lemma {:induction false} UserPlaylistSound(s: string)
    requires UserPlaylist(s).Some?
    ensures var (user, id) := UserPlaylist(s).value;
      IsWord(user) && IsWord(id) &&
      exists m, e :: CiEq(m, "/playlist/") && IsEnd(e) && s == user + (m + (id + e))
  {
    var n := WordRun(s);
    var id, e := IdAtEndSound(s[n + 10..]);
    SplitAround(s, n, 10);
  }

  /** `s` cut at `n` and again `j` further on. */
  lemma SplitAround(s: string, n: nat, j: nat)
    requires n + j <= |s|
    ensures s == s[..n] + (s[n..n + j] + s[n + j..])
  {
    assert s[n..] == s[n..n + j] + s[n + j..];
    assert s == s[..n] + s[n..];
  }

  /** `([\w\d]+)/playlist/([\w\d]+)$` captures the user and the id of a well-formed tail. */
  lemma {:induction false} UserPlaylistComplete(user: string, m: string, id: string, e: string)
    requires IsWord(user) && CiEq(m, "/playlist/") && IsWord(id) && IsEnd(e)
    ensures UserPlaylist(user + (m + (id + e))) == Some((user, id))
  {
    var tail := id + e;
    var s := user + (m + tail);
    assert Lower(m[0]) == Lower('/');
    WordRunOf(user, m + tail);
    var n := |user|;
    assert s[..n] == user;
    assert s[n..n + 10] == m;
    assert s[n + 10..] == tail;
    IdAtEndOf(id, e);
  }

  /** What the playlist matcher captures fits the playlist pattern. */
  lemma {:induction false} MatchPlaylistSound(url: string)
    requires MatchPlaylist(url).Some?
    ensures Fits(url, Playlist(MatchPlaylist(url).value.0, MatchPlaylist(url).value.1))
  {
    var p, t, s := MatchPlaylistSplit(url);
    var (user, id) := UserPlaylist(s).value;
    UserPlaylistSound(s);
    var m, e :| CiEq(m, "/playlist/") && IsEnd(e) && s == user + (m + (id + e));
    PlaylistIntro(url, p, t, user, m, id, e);
  }

  /** The playlist matcher takes the base and `user/` off the URL and matches the rest. */
  lemma MatchPlaylistSplit(url: string) returns (p: string, t: string, s: string)
    requires MatchPlaylist(url).Some?
    ensures IsBase(p) && CiEq(t, "user/") && url == p + (t + s) && MatchPlaylist(url) == UserPlaylist(s)
  {
    var k := BaseLength(url).value;
    var rest := url[k..];
    SplitTwice(url, k, 5);
    p, t, s := url[..k], rest[..5], rest[5..];
  }

  /** Pieces that each fit their part of the playlist pattern make a playlist URL. */
  lemma PlaylistIntro(url: string, p: string, t: string, user: string, m: string, id: string, e: string)
    requires PlaylistParts(p, t, user, m, id, e) && url == p + (t + (user + (m + (id + e))))
    ensures FitsPlaylist(url, user, id)
  {
    assert url == p + (t + user + m) + id + e;
  }

  /** A playlist URL is matched, and user and id captured are exactly the ones in it. */
  lemma {:induction false} MatchPlaylistComplete(url: string, user: string, id: string)
    requires Fits(url, Playlist(user, id))
    ensures MatchPlaylist(url) == Some((user, id))
  {
    var p, t, m, e :| PlaylistParts(p, t, user, m, id, e) && url == p + (t + user + m) + id + e;
    Regroup(url, p, t, user, m, id, e);
    BaseLengthOf(p, t + (user + (m + (id + e))));
    UserPlaylistComplete(user, m, id, e);
  }

  /** The pieces of `s` after the first one, grouped as the matchers take them apart. */
  lemma Regroup(s: string, p: string, t: string, u: string, m: string, id: string, e: string)
    requires s == p + (t + u + m) + id + e
    ensures s == p + (t + (u + (m + (id + e))))
    ensures s[|p|..][..|t|] == t && s[|p|..][|t|..] == u + (m + (id + e))
  {
    assert s == p + (t + (u + (m + (id + e))));
    assert s[|p|..] == t + (u + (m + (id + e)));
  }

  // ---------------------------------------------------------------------------
  // The resolver

  /** Every URI the resolver yields is the canonical URI of a resource that the URL fits. */
  lemma {:induction false} ResolveUriSound(url: string)
    requires ResolveUri(url).Some?
    ensures exists r :: Fits(url, r) && ResolveUri(url) == Some(CanonicalUri(r))
  {
    if MatchTrack(url).Some? {
      MatchSingleSound(url, "track/");
      assert Fits(url, Track(MatchTrack(url).value));
    } else if MatchPlaylist(url).Some? {
      MatchPlaylistSound(url);
      var (user, id) := MatchPlaylist(url).value;
      assert Fits(url, Playlist(user, id));
    } else {
      MatchSingleSound(url, "album/");
      assert Fits(url, Album(MatchAlbum(url).value));
    }
  }

  /** On a URL that fits `r`, the matcher of `r`'s shape captures `r`'s fields and the others fail. */
  lemma {:induction false} FitsMatchers(url: string, r: Resource)
    requires Fits(url, r)
    ensures MatchTrack(url) == (if r.Track? then Some(r.id) else None)
    ensures MatchPlaylist(url) == (if r.Playlist? then Some((r.user, r.id)) else None)
    ensures MatchAlbum(url) == (if r.Album? then Some(r.id) else None)
  {
    MatchersExclusive(url);
    match r
    case Track(id) => MatchSingleComplete(url, "track/", id);
    case Playlist(user, id) => MatchPlaylistComplete(url, user, id);
    case Album(id) => MatchSingleComplete(url, "album/", id);
  }

  /** A URL of any of the three shapes resolves to the canonical URI of its resource. */
  lemma ResolveUriComplete(url: string, r: Resource)
    requires Fits(url, r)
    ensures ResolveUri(url) == Some(CanonicalUri(r))
  {
    FitsMatchers(url, r);
  }

  /** The resolver yields FALSE exactly when the URL fits none of the three shapes. */
  lemma ResolveUriNone(url: string)
    ensures ResolveUri(url).None? <==> forall r :: !Fits(url, r)
  {
    if ResolveUri(url).Some? {
      ResolveUriSound(url);
    } else {
      forall r | Fits(url, r) ensures false {
        ResolveUriComplete(url, r);
      }
    }
  }

  /**
   * The three shapes exclude each other, and each determines its captures: a URL fits at
   * most one resource, so the order in which they are tried does not change the result.
   */
  lemma FitsUnique(url: string, r1: Resource, r2: Resource)
    requires Fits(url, r1) && Fits(url, r2)
    ensures r1 == r2
  {
    FitsMatchers(url, r1);
    FitsMatchers(url, r2);
  }

  // ---------------------------------------------------------------------------
  // What a resolvable URL looks like, and so which URLs are rejected

  /** The characters the three patterns can consume: `\w`, `:`, `/`, `.` and the final newline. */
  predicate IsUrlChar(c: char) {
    IsWordChar(c) || c == ':' || c == '/' || c == '.' || c == '\n'
  }

  predicate AllUrlChars(s: string) {
    forall i | 0 <= i < |s| :: IsUrlChar(s[i])
  }

  lemma AllUrlCharsConcat(a: string, b: string)
    requires AllUrlChars(a) && AllUrlChars(b)
    ensures AllUrlChars(a + b)
  {
    assert forall i | |a| <= i < |a + b| :: (a + b)[i] == b[i - |a|];
  }

  /** Case folding keeps a character inside or outside the pattern alphabet. */
  lemma {:induction false} CiEqUrlChars(s: string, lit: string)
    requires CiEq(s, lit) && AllUrlChars(lit)
    ensures AllUrlChars(s)
  {
    forall i | 0 <= i < |s| ensures IsUrlChar(s[i]) {
      assert Lower(s[i]) == Lower(lit[i]);
    }
  }

  /** The literal parts of the three patterns use only the pattern alphabet. */
  lemma LiteralUrlChars()
    ensures AllUrlChars(HttpOpen) && AllUrlChars(HttpsOpen) && AllUrlChars(HttpPlay) && AllUrlChars(HttpsPlay)
    ensures AllUrlChars("track/") && AllUrlChars("album/") && AllUrlChars("user/") && AllUrlChars("/playlist/")
  {
    OpenUrlChars();
    PlayUrlChars();
  }

  lemma OpenUrlChars()
    ensures AllUrlChars(HttpOpen) && AllUrlChars(HttpsOpen)
  {
    assert AllUrlChars(HttpOpen);
  }

  lemma PlayUrlChars()
    ensures AllUrlChars(HttpPlay) && AllUrlChars(HttpsPlay)
  {
    assert AllUrlChars(HttpPlay);
  }

  lemma {:induction false} BaseUrlChars(p: string)
    requires IsBase(p)
    ensures AllUrlChars(p)
  {
    LiteralUrlChars();
    if CiEq(p, HttpOpen) { CiEqUrlChars(p, HttpOpen); }
    else if CiEq(p, HttpsOpen) { CiEqUrlChars(p, HttpsOpen); }
    else if CiEq(p, HttpPlay) { CiEqUrlChars(p, HttpPlay); }
    else { CiEqUrlChars(p, HttpsPlay); }
  }

  /** A resolved URL is the base, a literal path (with the user), the id and the end. */
  lemma {:induction false} ResolvedLayout(url: string) returns (p: string, path: string, id: string, e: string)
    requires ResolveUri(url).Some?
    ensures IsBase(p) && AllUrlChars(path) && IsWord(id) && IsEnd(e) && url == p + path + id + e
  {
    LiteralUrlChars();
    if MatchTrack(url).Some? {
      id := MatchTrack(url).value;
      MatchSingleSound(url, "track/");
      p, path, e := SingleLayout(url, "track/", id);
    } else if MatchPlaylist(url).Some? {
      var user := MatchPlaylist(url).value.0;
      id := MatchPlaylist(url).value.1;
      MatchPlaylistSound(url);
      p, path, e := PlaylistLayout(url, user, id);
    } else {
      id := MatchAlbum(url).value;
      MatchSingleSound(url, "album/");
      p, path, e := SingleLayout(url, "album/", id);
    }
  }

  lemma {:induction false} PlaylistLayout(url: string, user: string, id: string) returns (p: string, path: string, e: string)
    requires FitsPlaylist(url, user, id)
    ensures IsBase(p) && AllUrlChars(path) && IsWord(id) && IsEnd(e) && url == p + path + id + e
  {
    var t, m;
    p, t, m, e :| PlaylistParts(p, t, user, m, id, e) && url == p + (t + user + m) + id + e;
    path := t + user + m;
    PlaylistPathChars(t, user, m);
  }

  lemma PlaylistPathChars(t: string, user: string, m: string)
    requires CiEq(t, "user/") && IsWord(user) && CiEq(m, "/playlist/")
    ensures AllUrlChars(t + user + m)
  {
    LiteralUrlChars();
    CiEqUrlChars(t, "user/");
    CiEqUrlChars(m, "/playlist/");
    AllUrlCharsConcat(t, user);
    AllUrlCharsConcat(t + user, m);
  }

  lemma {:induction false} SingleLayout(url: string, lit: string, id: string) returns (p: string, path: string, e: string)
    requires FitsSingle(url, lit, id) && AllUrlChars(lit)
    ensures IsBase(p) && AllUrlChars(path) && IsWord(id) && IsEnd(e) && url == p + path + id + e
  {
    p, path, e :| IsBase(p) && CiEq(path, lit) && IsEnd(e) && IsWord(id) && url == p + path + id + e;
    CiEqUrlChars(path, lit);
  }

  /**
   * A URL with any character outside the pattern alphabet (a query string's `?`, a fragment's
   * `#`, a percent escape, a hyphen, a space) is not resolved.
   */
  lemma {:induction false} ResolveUriAlphabet(url: string)
    ensures ResolveUri(url).Some? ==> AllUrlChars(url)
  {
    if ResolveUri(url).Some? {
      var p, path, id, e := ResolvedLayout(url);
      BaseUrlChars(p);
      assert AllUrlChars(id) && AllUrlChars(e);
      AllUrlCharsConcat(p, path);
      AllUrlCharsConcat(p + path, id);
      AllUrlCharsConcat(p + path + id, e);
    }
  }

  /**
   * A resolved URL ends in an id character, possibly followed by one newline: a trailing
   * slash or an empty id is not resolved.
   */
  lemma {:induction false} ResolveUriEnding(url: string)
    ensures ResolveUri(url).Some? ==>
      |url| >= 2 && (IsWordChar(url[|url| - 1]) || (url[|url| - 1] == '\n' && IsWordChar(url[|url| - 2])))
  {
    if ResolveUri(url).Some? {
      var p, path, id, e := ResolvedLayout(url);
      assert |p| > 0;
      assert url[|url| - 1 - |e|] == id[|id| - 1];
    }
  }

  /** A resolved URL starts with the Spotify base, so every other scheme and host is rejected. */
  lemma {:induction false} ResolveUriHost(url: string)
    ensures ResolveUri(url).Some? ==> exists p :: IsBase(p) && p <= url
  {
    if ResolveUri(url).Some? {
      var p, path, id, e := ResolvedLayout(url);
      BasePrefix(url, p, path, id + e);
    }
  }

  /** A URL that ends in a slash, such as one with an empty id, is not resolved. */
  lemma ResolveUriTrailingSlash(url: string)
    ensures ResolveUri(url + "/").None?
  {
    ResolveUriEnding(url + "/");
  }

  /** A URL followed by a query string (`?`) or a fragment (`#`) is not resolved, whatever the URL. */
  lemma ResolveUriQueryOrFragment(url: string, separator: char, tail: string)
    requires separator == '?' || separator == '#'
    ensures ResolveUri(url + [separator] + tail).None?
  {
    var u := url + [separator] + tail;
    ResolveUriAlphabet(u);
    assert u[|url|] == separator;
  }

  /** A base followed by anything has that base as a prefix. */
  lemma BasePrefix(url: string, p: string, path: string, tail: string)
    requires IsBase(p) && url == p + path + tail
    ensures exists q :: IsBase(q) && q <= url
  {
    assert url[..|p|] == p;
  }

  /** A path segment after the id of a track or album URL makes it unresolvable. */
  lemma {:induction false} ResolveUriExtraSegment(p: string, lit: string, id: string, x: string)
    requires IsBase(p) && (lit == "track/" || lit == "album/") && IsWord(id)
    ensures ResolveUri(p + lit + id + "/" + x).None?
  {
    var s := id + "/" + x;
    var rest := lit + s;
    RegroupSegment(p, lit, id, x);
    MatchSingleAfter(p, rest, "track/");
    MatchSingleAfter(p, rest, "album/");
    MatchPlaylistAfter(p, rest);
    LiteralThenRest(lit, s);
    IdAtEndSlash(id, x);
    DistinctLiterals();
  }

  /** The segmented URL, grouped as the matchers take it apart. */
  lemma RegroupSegment(p: string, lit: string, id: string, x: string)
    ensures p + lit + id + "/" + x == p + (lit + (id + "/" + x))
  {
  }

  /** A one-id matcher after the base sees only what follows the base. */
  lemma MatchSingleAfter(p: string, rest: string, lit: string)
    requires IsBase(p)
    ensures MatchSingle(p + rest, lit)
            == if |rest| >= |lit| && CiEq(rest[..|lit|], lit) then IdAtEnd(rest[|lit|..]) else None
  {
    AfterBase(p, rest);
  }

  /** The playlist matcher after the base sees only what follows the base. */
  lemma MatchPlaylistAfter(p: string, rest: string)
    requires IsBase(p)
    ensures MatchPlaylist(p + rest)
            == if |rest| >= 5 && CiEq(rest[..5], "user/") then UserPlaylist(rest[5..]) else None
  {
    AfterBase(p, rest);
  }

  /** A path that starts with `track/` or `album/` is taken apart at its literal, and is no `user/` path. */
  lemma LiteralThenRest(lit: string, s: string)
    requires lit == "track/" || lit == "album/"
    ensures |lit + s| >= 6 && (lit + s)[..6] == lit && (lit + s)[6..] == s
    ensures !CiEq((lit + s)[..5], "user/")
  {
    assert (lit + s)[..5][0] == lit[0];
  }

  /** The two one-id literals differ in their first letter, whatever the case. */
  lemma DistinctLiterals()
    ensures !CiEq("track/", "album/") && !CiEq("album/", "track/")
  {
    assert Lower("track/"[0]) != Lower("album/"[0]);
  }

  /** After the base, the matchers see exactly what follows it. */
  lemma AfterBase(p: string, rest: string)
    requires IsBase(p)
    ensures BaseLength(p + rest) == Some(|p|) && (p + rest)[|p|..] == rest
  {
    BaseLengthOf(p, rest);
  }

  /** `([\w\d]+)$` does not match an id followed by a slash. */
  lemma {:induction false} IdAtEndSlash(id: string, x: string)
    requires IsWord(id)
    ensures IdAtEnd(id + "/" + x).None?
  {
    var s := id + "/" + x;
    assert !IsWordChar(s[|id|]);
    if s[|s| - 1] == '\n' {
      assert |x| > 0;
      assert s[..|s| - 1][|id|] == '/';
    }
  }
}
