/** The trailer player (src/components/VideoPlayer.tsx): extraction of a YouTube video id
    from the trailer URL, the embed URL built from it, and the player's controls, which
    drive the embedded iframe by posting commands to it. */
module VideoPlayer {
  import opened Wrappers
  import opened Text

  // ---------------------------------------------------------------------------------
  // The video-id regular expression
  //   (?:youtube\.com\/(?:[^\/]+\/.+\/|(?:v|e(?:mbed)?)\/|.*[?&]v=)|youtu\.be\/)([^"&?\/\s]{11})
  // with JavaScript's matching order: the leftmost start position wins; at one position
  // the alternatives are tried left to right; greedy repetitions try their longest
  // extent first and back off one character at a time.
  // ---------------------------------------------------------------------------------

  /** The class `[^"&?\/\s]`. */
  predicate IdChar(c: char) {
    c != '"' && c != '&' && c != '?' && c != '/' && !IsJsSpace(c)
  }

  /** The capture group `([^"&?\/\s]{11})` matches at position k. */
  predicate IdAt(s: string, k: int) {
    0 <= k && k + 11 <= |s| && forall j :: k <= j < k + 11 ==> IdChar(s[j])
  }

  predicate IsVideoId(id: string) {
    IdAt(id, 0) && |id| == 11
  }

  /** First position at or after i holding '/', or |s|: the extent of `[^\/]+`. */
  function NextSlash(s: string, i: nat): (r: nat)
    requires i <= |s|
    ensures i <= r <= |s|
    ensures r < |s| ==> s[r] == '/'
    ensures forall j :: i <= j < r ==> s[j] != '/'
    decreases |s| - i
  {
    if i == |s| || s[i] == '/' then i else NextSlash(s, i + 1)
  }

  /** First position at or after i holding a line terminator, or |s|: the extent of `.*`. */
  function LineEnd(s: string, i: nat): (r: nat)
    requires i <= |s|
    ensures i <= r <= |s|
    ensures r < |s| ==> IsLineTerminator(s[r])
    ensures forall j :: i <= j < r ==> !IsLineTerminator(s[j])
    decreases |s| - i
  {
    if i == |s| || IsLineTerminator(s[i]) then i else LineEnd(s, i + 1)
  }

  /** `\/` followed by the capture group, at t. */
  predicate SlashThenId(s: string, t: int) {
    0 <= t < |s| && s[t] == '/' && IdAt(s, t + 1)
  }

  /** `[?&]v=` followed by the capture group, at t. */
  predicate QueryVThenId(s: string, t: int) {
    0 <= t < |s| && (s[t] == '?' || s[t] == '&') && OccursAt(s, "v=", t + 1) && IdAt(s, t + 3)
  }

  /** Backtracking of a greedy `.+` / `.*` that ends before `hi`: the last t in [lo, hi)
      where the rest of the pattern, `\/` and the group, matches. */
  function LastSlashThenId(s: string, lo: nat, hi: nat): (r: Option<nat>)
    requires hi <= |s|
    ensures r.Some? ==> lo <= r.value < hi && SlashThenId(s, r.value)
    ensures r.Some? ==> forall t :: r.value < t < hi ==> !SlashThenId(s, t)
    ensures r.None? ==> forall t :: lo <= t < hi ==> !SlashThenId(s, t)
    decreases hi
  {
    if hi <= lo then None
    else if SlashThenId(s, hi - 1) then Some(hi - 1)
    else LastSlashThenId(s, lo, hi - 1)
  }

  /** The same backtracking for `.*[?&]v=` followed by the group. */
  function LastQueryVThenId(s: string, lo: nat, hi: nat): (r: Option<nat>)
    requires hi <= |s|
    ensures r.Some? ==> lo <= r.value < hi && QueryVThenId(s, r.value)
    ensures r.Some? ==> forall t :: r.value < t < hi ==> !QueryVThenId(s, t)
    ensures r.None? ==> forall t :: lo <= t < hi ==> !QueryVThenId(s, t)
    decreases hi
  {
    if hi <= lo then None
    else if QueryVThenId(s, hi - 1) then Some(hi - 1)
    else LastQueryVThenId(s, lo, hi - 1)
  }

  /** The three alternatives that follow `youtube\.com\/`, tried on the rest `t` of the
      URL in order; the result is where the capture group starts in `t`. */
  function AfterYoutubeCom(t: string): (r: Option<nat>)
    ensures r.Some? ==> IdAt(t, r.value)
  {
    // [^\/]+\/.+\/ : the first run of non-slashes is forced; `.+` backs off from the
    // end of the line.
    var q := NextSlash(t, 0);
    var a1 := if 0 < q < |t| then LastSlashThenId(t, q + 2, LineEnd(t, q + 1)) else None;
    if a1.Some? then Some(a1.value + 1)
    // (?:v|e(?:mbed)?)\/ : `v`, then `e` with the greedy optional `mbed` first.
    else if OccursAt(t, "v/", 0) && IdAt(t, 2) then Some(2)
    else if OccursAt(t, "embed/", 0) && IdAt(t, 6) then Some(6)
    else if OccursAt(t, "e/", 0) && IdAt(t, 2) then Some(2)
    // .*[?&]v=
    else
      match LastQueryVThenId(t, 0, LineEnd(t, 0))
      case Some(x) => Some(x + 3)
      case None => None
  }

  lemma IdAtShift(s: string, d: nat, k: nat)
    requires d <= |s| && IdAt(s[d..], k)
    ensures IdAt(s, d + k)
  {
    assert forall j :: d + k <= j < d + k + 11 ==> s[j] == s[d..][j - d];
  }

  /** The match at start position `start`, if any: where its capture group starts. */
  function MatchAt(s: string, start: nat): (r: Option<nat>)
    requires start <= |s|
    ensures r.Some? ==> start <= r.value && IdAt(s, r.value)
    ensures r.Some? ==> OccursAt(s, "youtube.com/", start) || OccursAt(s, "youtu.be/", start)
  {
    if OccursAt(s, "youtube.com/", start) then
      match AfterYoutubeCom(s[start + 12..])
      case Some(k) =>
        IdAtShift(s, start + 12, k);
        Some(start + 12 + k)
      case None => None
    else if OccursAt(s, "youtu.be/", start) && IdAt(s, start + 9) then Some(start + 9)
    else None
  }

  /** `i` is the leftmost position at or after `start` where the expression matches. */
  predicate FirstMatchAt(s: string, start: nat, i: nat)
    requires start <= |s|
  {
    start <= i <= |s| && MatchAt(s, i).Some?
    && forall j :: start <= j < i ==> MatchAt(s, j).None?
  }

  /** The leftmost match at or after `start`: positions are tried from `start` on and the
      first that matches gives the result (see `MatchFromIsLeftmost`). */
  function MatchFrom(s: string, start: nat): (r: Option<nat>)
    requires start <= |s|
    ensures r.Some? ==> start <= r.value && IdAt(s, r.value)
    ensures r.Some? ==> exists i :: OccursAt(s, "youtube.com/", i) || OccursAt(s, "youtu.be/", i)
    ensures r.None? ==> forall i :: start <= i <= |s| ==> MatchAt(s, i).None?
    decreases |s| - start
  {
    var here := MatchAt(s, start);
    if here.Some? then
      assert OccursAt(s, "youtube.com/", start) || OccursAt(s, "youtu.be/", start);
      here
    else if start == |s| then None
    else MatchFrom(s, start + 1)
  }

  /** `MatchFrom` finds nothing exactly when no position from `start` on matches, and
      otherwise gives the capture group of the match at the first position that matches. */
  lemma {:induction false} MatchFromIsLeftmost(s: string, start: nat)
    requires start <= |s|
    ensures MatchFrom(s, start).None? <==> forall i :: start <= i <= |s| ==> MatchAt(s, i).None?
    ensures MatchFrom(s, start).Some? ==>
      exists i :: FirstMatchAt(s, start, i) && MatchAt(s, i) == MatchFrom(s, start)
    decreases |s| - start
  {
    var r := MatchFrom(s, start);
    if MatchAt(s, start).Some? {
      assert r == MatchAt(s, start);
      assert FirstMatchAt(s, start, start);
    } else if start < |s| {
      assert r == MatchFrom(s, start + 1);
      MatchFromIsLeftmost(s, start + 1);
      if r.Some? {
        var i :| FirstMatchAt(s, start + 1, i) && MatchAt(s, i) == r;
        assert FirstMatchAt(s, start, i) by {
          assert forall j :: start + 1 <= j < i ==> MatchAt(s, j).None?;
        }
      } else {
        assert forall i :: start + 1 <= i <= |s| ==> MatchAt(s, i).None?;
      }
    }
  }

  /** `getYouTubeVideoId`: the capture group of the first match, or null. A result is
      always eleven characters none of which is `"`, `&`, `?`, `/` or white space, and
      there is a result only if the URL mentions `youtube.com/` or `youtu.be/`. */
  function GetYouTubeVideoId(url: string): (r: Option<string>)
    ensures r.Some? ==> IsVideoId(r.value)
    ensures r.Some? ==> Includes(url, "youtube.com/") || Includes(url, "youtu.be/")
  {
    match MatchFrom(url, 0)
    case Some(k) =>
      var id := url[k..k + 11];
      assert forall j :: 0 <= j < 11 ==> id[j] == url[k + j];
      IncludesIff(url, "youtube.com/");
      IncludesIff(url, "youtu.be/");
      Some(id)
    case None => None
  }

  lemma NotAtWhenDiffers(s: string, q: string, i: nat, j: nat)
    requires j < |q| && i + j < |s| && s[i + j] != q[j]
    ensures !OccursAt(s, q, i)
  {
    if i + |q| <= |s| {
      assert s[i..i + |q|][j] == s[i + j];
    }
  }

  /** Start positions before which no 'y' occurs cannot begin a match. */
  lemma {:induction false} SkipWithoutY(s: string, from: nat, to: nat)
    requires from <= to <= |s|
    requires forall k :: from <= k < to ==> s[k] != 'y'
    ensures MatchFrom(s, from) == MatchFrom(s, to)
    decreases (to as int) - (from as int)
  {
    if from < to {
      NotAtWhenDiffers(s, "youtube.com/", from, 0);
      NotAtWhenDiffers(s, "youtu.be/", from, 0);
      SkipWithoutY(s, from + 1, to);
    }
  }

  const YoutubeWww := "https://www.youtube.com/"

  lemma WwwPrefix(rest: string)
    ensures var s := YoutubeWww + rest;
            (forall k :: 0 <= k < 12 ==> s[k] != 'y')
            && OccursAt(s, "youtube.com/", 12) && s[24..] == rest
  {
    var a := "https://www.";
    var s := a + "youtube.com/" + rest;
    assert s == YoutubeWww + rest;
    assert 'y' !in a;
    assert forall k :: 0 <= k < 12 ==> s[k] == a[k];
    assert s[12..24] == "youtube.com/";
  }

  /** When the alternatives accept the rest after `youtube.com/`, the match found there
      is the leftmost one. */
  lemma MatchAfterYoutubeCom(s: string, start: nat)
    requires OccursAt(s, "youtube.com/", start)
    requires AfterYoutubeCom(s[start + 12..]).Some?
    requires forall k :: 0 <= k < start ==> s[k] != 'y'
    ensures MatchFrom(s, 0) == Some(start + 12 + AfterYoutubeCom(s[start + 12..]).value)
  {
    SkipWithoutY(s, 0, start);
  }

  /** A URL on www.youtube.com whose path the alternatives accept yields the id they
      locate. */
  lemma WwwYoutubeComUrl(rest: string)
    requires AfterYoutubeCom(rest).Some?
    ensures var k := AfterYoutubeCom(rest).value;
            GetYouTubeVideoId(YoutubeWww + rest) == Some(rest[k..k + 11])
  {
    var s := YoutubeWww + rest;
    WwwPrefix(rest);
    assert s[24..] == rest;
    var k := AfterYoutubeCom(rest).value;
    MatchAfterYoutubeCom(s, 12);
    assert MatchFrom(s, 0) == Some(24 + k);
    SliceOfSuffix(s, 24, k, 11);
    assert GetYouTubeVideoId(s) == Some(s[24 + k..24 + k + 11]);
  }

  lemma SliceOfSuffix(s: string, d: nat, k: nat, n: nat)
    requires d + k + n <= |s|
    ensures s[d + k..d + k + n] == s[d..][k..k + n]
  {
  }

  /** For every URL: no id exactly when the expression matches at no position, and
      otherwise the id is the capture group of the match at the leftmost position. */
  lemma LeftmostMatchId(url: string)
    ensures GetYouTubeVideoId(url).None? <==> forall i :: 0 <= i <= |url| ==> MatchAt(url, i).None?
    ensures GetYouTubeVideoId(url).Some? ==>
      exists i :: FirstMatchAt(url, 0, i)
        && GetYouTubeVideoId(url).value == url[MatchAt(url, i).value..MatchAt(url, i).value + 11]
  {
    var m := MatchFrom(url, 0);
    MatchFromIsLeftmost(url, 0);
    if m.Some? {
      var i :| FirstMatchAt(url, 0, i) && MatchAt(url, i) == m;
      assert GetYouTubeVideoId(url).value == url[m.value..m.value + 11];
    }
  }

  /** `watch?v=<id>`: the first two alternatives fail and `.*[?&]v=` finds the id. */
  lemma WatchPath(id: string)
    requires IsVideoId(id)
    ensures AfterYoutubeCom("watch?v=" + id) == Some(8)
  {
    var t := "watch?v=" + id;
    assert forall j :: 8 <= j < |t| ==> t[j] == id[j - 8];
    assert forall j :: 0 <= j < |t| ==> t[j] != '/' && !IsLineTerminator(t[j]);
    assert NextSlash(t, 0) == |t|;
    assert LineEnd(t, 0) == |t|;
    NotAtWhenDiffers(t, "v/", 0, 0);
    NotAtWhenDiffers(t, "embed/", 0, 0);
    NotAtWhenDiffers(t, "e/", 0, 0);
    assert t[6..8] == "v=";
    assert QueryVThenId(t, 5);
    assert LastQueryVThenId(t, 0, |t|) == Some(5);
  }

  /** `embed/<id><query>` with no '/' in the query: the second alternative finds the id. */
  lemma EmbedPath(id: string, query: string)
    requires IsVideoId(id)
    requires '/' !in query
    ensures AfterYoutubeCom("embed/" + id + query) == Some(6)
  {
    var t := "embed/" + id + query;
    assert forall j :: 6 <= j < 17 ==> t[j] == id[j - 6];
    assert forall j :: 17 <= j < |t| ==> t[j] == query[j - 17] && query[j - 17] in query;
    assert forall j :: 6 <= j < |t| ==> t[j] != '/';
    assert t[5] == '/';
    assert NextSlash(t, 0) == 5;
    assert LastSlashThenId(t, 7, LineEnd(t, 6)).None?;
    NotAtWhenDiffers(t, "v/", 0, 0);
    assert t[..6] == "embed/";
  }

  /** A watch URL yields its video id. */
  lemma WatchUrlId(id: string)
    requires IsVideoId(id)
    ensures GetYouTubeVideoId(YoutubeWww + "watch?v=" + id) == Some(id)
  {
    var rest := "watch?v=" + id;
    WatchPath(id);
    WwwYoutubeComUrl(rest);
    assert rest[8..19] == id;
    assert YoutubeWww + rest == YoutubeWww + "watch?v=" + id;
  }

  /** An embed URL, with any query string that contains no '/', yields its video id. */
  lemma EmbedUrlId(id: string, query: string)
    requires IsVideoId(id)
    requires '/' !in query
    ensures GetYouTubeVideoId(YoutubeWww + "embed/" + id + query) == Some(id)
  {
    var rest := "embed/" + id + query;
    EmbedPath(id, query);
    WwwYoutubeComUrl(rest);
    assert rest[6..17] == id;
    assert YoutubeWww + rest == YoutubeWww + "embed/" + id + query;
  }

  const YoutuBe := "https://youtu.be/"

  lemma ShortPrefix(id: string)
    requires IsVideoId(id)
    ensures var s := YoutuBe + id;
            (forall k :: 0 <= k < 8 ==> s[k] != 'y')
            && !OccursAt(s, "youtube.com/", 8) && OccursAt(s, "youtu.be/", 8)
            && IdAt(s, 17) && s[17..28] == id
  {
    var a := "https://";
    var s := a + "youtu.be/" + id;
    assert s == YoutuBe + id;
    assert 'y' !in a;
    assert forall k :: 0 <= k < 8 ==> s[k] == a[k];
    assert s[8..17] == "youtu.be/";
    assert s[13] == '.';
    NotAtWhenDiffers(s, "youtube.com/", 8, 5);
    assert forall j :: 17 <= j < 28 ==> s[j] == id[j - 17];
  }

  /** A short youtu.be URL yields its video id. */
  lemma ShortUrlId(id: string)
    requires IsVideoId(id)
    ensures GetYouTubeVideoId(YoutuBe + id) == Some(id)
  {
    var s := YoutuBe + id;
    ShortPrefix(id);
    SkipWithoutY(s, 0, 8);
    assert MatchAt(s, 8) == Some(17);
  }

  // ---------------------------------------------------------------------------------
  // The embed URL
  // ---------------------------------------------------------------------------------

  const EmbedPrefix := YoutubeWww + "embed/"
  const EmbedParams := "?autoplay=1&controls=0&modestbranding=1" + "&rel=0&showinfo=0&fs=1&cc_load_policy=0"
                       + "&iv_load_policy=3&autohide=1&enablejsapi=1"

  /** `videoId`: no trailer URL, or the empty one, gives no id. */
  function VideoIdOf(trailerUrl: Option<string>): (r: Option<string>)
    ensures r.Some? ==> trailerUrl.Some? && r == GetYouTubeVideoId(trailerUrl.value)
    ensures trailerUrl.Some? && trailerUrl.value != "" ==> r == GetYouTubeVideoId(trailerUrl.value)
  {
    match trailerUrl
    case Some(u) => if u == "" then None else GetYouTubeVideoId(u)
    case None => None
  }

  /** `embedUrl`: present exactly when a video id was found, and the id it carries is that
      video id. */
  function EmbedUrl(trailerUrl: Option<string>): (r: Option<string>)
    ensures r.Some? <==> VideoIdOf(trailerUrl).Some?
    ensures r.Some? ==> OccursAt(r.value, VideoIdOf(trailerUrl).value, |EmbedPrefix|)
    ensures r.Some? ==> r.value == EmbedPrefix + VideoIdOf(trailerUrl).value + EmbedParams
  {
    match VideoIdOf(trailerUrl)
    case Some(id) =>
      assert (EmbedPrefix + id + EmbedParams)[|EmbedPrefix|..|EmbedPrefix| + |id|] == id;
      Some(EmbedPrefix + id + EmbedParams)
    case None => None
  }

  lemma EmbedParamsHaveNoSlash()
    ensures '/' !in EmbedParams
  {
    NoSlash1();
    NoSlash2();
    NoSlash3();
  }

  lemma NoSlash1() ensures '/' !in "?autoplay=1&controls=0&modestbranding=1" {}
  lemma NoSlash2() ensures '/' !in "&rel=0&showinfo=0&fs=1&cc_load_policy=0" {}
  lemma NoSlash3() ensures '/' !in "&iv_load_policy=3&autohide=1&enablejsapi=1" {}

  /** The embed URL is itself a YouTube URL from which the same video id is extracted. */
  lemma EmbedUrlRoundTrip(trailerUrl: Option<string>)
    requires EmbedUrl(trailerUrl).Some?
    ensures GetYouTubeVideoId(EmbedUrl(trailerUrl).value) == VideoIdOf(trailerUrl)
  {
    var id := VideoIdOf(trailerUrl).value;
    EmbedParamsHaveNoSlash();
    EmbedUrlId(id, EmbedParams);
    assert EmbedUrl(trailerUrl).value == YoutubeWww + "embed/" + id + EmbedParams;
  }

  /** `if (!isOpen || !embedUrl) return null`: the player renders only when open and an
      embed URL exists. */
  predicate Renders(isOpen: bool, trailerUrl: Option<string>) {
    isOpen && EmbedUrl(trailerUrl).Some?
  }

  /** The "Loading trailer..." block (`!videoId`) inside the rendered player: rendering
      already requires a video id, so it never shows. */
  function LoadingShown(isOpen: bool, trailerUrl: Option<string>): (b: bool)
    ensures !b
  {
    Renders(isOpen, trailerUrl) && VideoIdOf(trailerUrl).None?
  }

  // ---------------------------------------------------------------------------------
  // The player
  // ---------------------------------------------------------------------------------

  /** The commands posted to the iframe. */
  datatype Command = PlayVideo | PauseVideo | Mute | UnMute | SeekTo(seconds: int, allowSeekAhead: bool)

  /** What the player does outside its own state. */
  datatype Effect = Post(command: Command) | CloseRequested | FullscreenToggled

  class Player {
    /** The `isOpen` prop, which the parent changes. */
    var isOpen: bool
    const trailerUrl: Option<string>
    var showControls: bool
    var isPlaying: bool
    var isMuted: bool
    /** The `isMuted` the registered keydown handler closed over. The handler is
        registered again only when `isOpen` or `isPlaying` changes, so this is the value
        `isMuted` had at the last such change. */
    var handlerMuted: bool
    /** A control-hiding timer is scheduled. */
    var hideTimerPending: bool
    /** Messages posted and callbacks made, oldest first. */
    var effects: seq<Effect>

    /** The iframe exists (`iframeRef.current` is set) exactly when the player renders. */
    predicate HasIframe()
      reads this
    {
      Renders(isOpen, trailerUrl)
    }

    constructor (isOpen: bool, trailerUrl: Option<string>)
      ensures this.isOpen == isOpen && this.trailerUrl == trailerUrl
      ensures showControls && !isPlaying && !isMuted && !handlerMuted
      ensures !hideTimerPending && effects == []
    {
      this.isOpen := isOpen;
      this.trailerUrl := trailerUrl;
      showControls := true;
      isPlaying := false;
      isMuted := false;
      handlerMuted := false;
      hideTimerPending := false;
      effects := [];
    }

    /** A new `isOpen` prop from the parent; a change re-registers the keydown handler. */
    method SetOpen(open: bool)
      modifies this`isOpen, this`handlerMuted
      ensures isOpen == open
      ensures handlerMuted == if open != old(isOpen) then isMuted else old(handlerMuted)
    {
      if open != isOpen {
        handlerMuted := isMuted;
      }
      isOpen := open;
    }

    /** `setIsPlaying`; a change re-registers the keydown handler. */
    method SetPlaying(playing: bool)
      modifies this`isPlaying, this`handlerMuted
      ensures isPlaying == playing
      ensures handlerMuted == if playing != old(isPlaying) then isMuted else old(handlerMuted)
    {
      if playing != isPlaying {
        handlerMuted := isMuted;
      }
      isPlaying := playing;
    }

    /** `togglePlayPause`: with an iframe, posts pause when playing and play otherwise, and
        flips `isPlaying`; without one, does nothing. */
    method TogglePlayPause()
      modifies this`isPlaying, this`handlerMuted, this`effects
      ensures HasIframe() ==> isPlaying == !old(isPlaying) && handlerMuted == isMuted
      ensures HasIframe() ==>
        effects == old(effects) + [Post(if old(isPlaying) then PauseVideo else PlayVideo)]
      ensures !HasIframe() ==>
        isPlaying == old(isPlaying) && handlerMuted == old(handlerMuted) && effects == old(effects)
    {
      if HasIframe() {
        effects := effects + [Post(if isPlaying then PauseVideo else PlayVideo)];
        SetPlaying(!isPlaying);
      }
    }

    /** `toggleMute` as seen with `isMuted == muted`: posts unMute when muted and mute
        otherwise, and sets `isMuted` to the opposite of `muted`. */
    method MuteFrom(muted: bool)
      modifies this`isMuted, this`effects
      ensures HasIframe() ==> isMuted == !muted
      ensures HasIframe() ==> effects == old(effects) + [Post(if muted then UnMute else Mute)]
      ensures !HasIframe() ==> isMuted == old(isMuted) && effects == old(effects)
    {
      if HasIframe() {
        effects := effects + [Post(if muted then UnMute else Mute)];
        isMuted := !muted;
      }
    }

    /** The mute button: `toggleMute` with the current `isMuted`. */
    method ToggleMute()
      modifies this`isMuted, this`effects
      ensures HasIframe() ==> isMuted == !old(isMuted)
      ensures HasIframe() ==>
        effects == old(effects) + [Post(if old(isMuted) then UnMute else Mute)]
      ensures !HasIframe() ==> isMuted == old(isMuted) && effects == old(effects)
    {
      MuteFrom(isMuted);
    }

    /** `restartVideo`: seeks to 0, then plays; the player is then playing. */
    method RestartVideo()
      modifies this`isPlaying, this`handlerMuted, this`effects
      ensures HasIframe() ==> isPlaying
      ensures HasIframe() ==> effects == old(effects) + [Post(SeekTo(0, true)), Post(PlayVideo)]
      ensures HasIframe() ==> handlerMuted == if old(isPlaying) then old(handlerMuted) else isMuted
      ensures !HasIframe() ==>
        isPlaying == old(isPlaying) && handlerMuted == old(handlerMuted) && effects == old(effects)
    {
      if HasIframe() {
        effects := effects + [Post(SeekTo(0, true)), Post(PlayVideo)];
        SetPlaying(true);
      }
    }

    /** `toggleFullscreen`: with an iframe, enters or leaves full screen. */
    method ToggleFullscreen()
      modifies this`effects
      ensures effects == old(effects) + (if HasIframe() then [FullscreenToggled] else [])
    {
      if HasIframe() {
        effects := effects + [FullscreenToggled];
      }
    }

    /** The document keydown handler: nothing while closed; Space toggles playback, Escape
        asks the parent to close, KeyM toggles mute from the value the handler closed
        over, KeyF toggles full screen; other keys do nothing. */
    method KeyDown(code: string)
      modifies this`isPlaying, this`isMuted, this`handlerMuted, this`effects
      ensures !old(isOpen) || code !in {"Space", "Escape", "KeyM", "KeyF"} ==>
        isPlaying == old(isPlaying) && isMuted == old(isMuted)
        && handlerMuted == old(handlerMuted) && effects == old(effects)
      ensures old(isOpen) && code == "Space" && HasIframe() ==>
        isPlaying == !old(isPlaying) && isMuted == old(isMuted) && handlerMuted == old(isMuted)
        && effects == old(effects) + [Post(if old(isPlaying) then PauseVideo else PlayVideo)]
      ensures old(isOpen) && code == "Escape" ==>
        isPlaying == old(isPlaying) && isMuted == old(isMuted) && handlerMuted == old(handlerMuted)
        && effects == old(effects) + [CloseRequested]
      ensures old(isOpen) && (code == "Space" || code == "KeyM") && !HasIframe() ==>
        isPlaying == old(isPlaying) && isMuted == old(isMuted)
        && handlerMuted == old(handlerMuted) && effects == old(effects)
      ensures old(isOpen) && code == "KeyM" && HasIframe() ==>
        isPlaying == old(isPlaying) && isMuted == !old(handlerMuted) && handlerMuted == old(handlerMuted)
        && effects == old(effects) + [Post(if old(handlerMuted) then UnMute else Mute)]
      ensures old(isOpen) && code == "KeyF" ==>
        isPlaying == old(isPlaying) && isMuted == old(isMuted) && handlerMuted == old(handlerMuted)
        && effects == old(effects) + (if HasIframe() then [FullscreenToggled] else [])
    {
      if !isOpen {
        return;
      }
      if code == "Space" {
        TogglePlayPause();
      } else if code == "Escape" {
        effects := effects + [CloseRequested];
      } else if code == "KeyM" {
        MuteFrom(handlerMuted);
      } else if code == "KeyF" {
        ToggleFullscreen();
      }
    }

    /** `handleMouseMove`: shows the controls and (re)starts the three-second timer. */
    method MouseMove()
      modifies this`showControls, this`hideTimerPending
      ensures showControls && hideTimerPending
    {
      showControls := true;
      hideTimerPending := true;
    }

    /** The timer started by the last mouse move fires: the controls hide. */
    method HideTimerFires()
      requires hideTimerPending
      modifies this`showControls, this`hideTimerPending
      ensures !showControls && !hideTimerPending
    {
      showControls := false;
      hideTimerPending := false;
    }
  }

  /** Clicking the mute button twice restores the mute state and posts the two opposite
      commands. */
  method MuteButtonTwice(p: Player)
    requires p.HasIframe()
    modifies p
    ensures p.isMuted == old(p.isMuted)
    ensures p.effects == old(p.effects) + [Post(if old(p.isMuted) then UnMute else Mute),
                                           Post(if old(p.isMuted) then Mute else UnMute)]
  {
    p.ToggleMute();
    p.ToggleMute();
  }

  /** Pressing M twice with no play/pause change in between does not toggle back: both
      presses act on the value the handler closed over, so an unmuted player whose
      handler saw it unmuted is muted twice. */
  method KeyMTwice(p: Player)
    requires p.HasIframe() && !p.handlerMuted
    modifies p
    ensures p.isMuted
    ensures p.effects == old(p.effects) + [Post(Mute), Post(Mute)]
  {
    p.KeyDown("KeyM");
    p.KeyDown("KeyM");
  }
}
