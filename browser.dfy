/** The browser version of the viewer: a grid of at most fifteen video
    screens, each with a URL field and play, pause and stop buttons, and the
    choice of how a URL is handed to the player. The browser's capabilities
    (`Hls.isSupported()`, `canPlayType` for HLS) are inputs. */
module Browser {
  import opened Text

  const MaxScreens := 15
  const HlsSuffix := ".m3u8"
  const HttpPrefix := "http://"
  const HttpsPrefix := "https://"

  /** The branch `setupVideoPlayer` takes for a URL. */
  datatype Playback =
    | HlsJs          // hls.js loads the stream
    | NativeHls      // the video element plays the stream itself
    | HlsUnsupported // alert: the browser cannot play HLS
    | Mp4Source      // the player gets the URL as an MP4 source
    | Unsupported    // alert: unsupported format or wrong URL

  predicate IsHls(url: string) {
    EndsWith(url, HlsSuffix)
  }

  predicate IsHttp(url: string) {
    StartsWith(url, HttpPrefix) || StartsWith(url, HttpsPrefix)
  }

  /** `setupVideoPlayer`'s decision: the suffix test comes first, then, for
      HLS, hls.js before native playback. */
  function Classify(url: string, hlsSupported: bool, canPlayNative: bool): (c: Playback)
    ensures c.HlsJs? <==> IsHls(url) && hlsSupported
    ensures c.NativeHls? <==> IsHls(url) && !hlsSupported && canPlayNative
    ensures c.HlsUnsupported? <==> IsHls(url) && !hlsSupported && !canPlayNative
    ensures c.Mp4Source? <==> !IsHls(url) && IsHttp(url)
    ensures c.Unsupported? <==> !IsHls(url) && !IsHttp(url)
  {
    if IsHls(url) then
      if hlsSupported then HlsJs
      else if canPlayNative then NativeHls
      else HlsUnsupported
    else if IsHttp(url) then Mp4Source
    else Unsupported
  }

  /** Whether the branch ends in an alert. */
  predicate Alerts(c: Playback) {
    c.HlsUnsupported? || c.Unsupported?
  }

  /** An HLS URL takes an HLS branch even when it is also an http(s) URL,
      and which one depends only on the browser; any other URL's branch
      does not depend on the browser at all. */
  lemma HlsFirst(url: string, h: bool, n: bool, h': bool, n': bool)
    ensures IsHls(url) ==> Classify(url, h, n) in {HlsJs, NativeHls, HlsUnsupported}
    ensures !IsHls(url) ==> Classify(url, h, n) == Classify(url, h', n')
  {
  }

  lemma HttpStreamIsHls(path: string, h: bool, n: bool)
    ensures Classify(HttpPrefix + path + HlsSuffix, h, n) != Mp4Source
    ensures IsHttp(HttpPrefix + path + HlsSuffix)
  {
    var url := HttpPrefix + path + HlsSuffix;
    assert url[|url| - |HlsSuffix|..] == HlsSuffix;
    assert url[..|HttpPrefix|] == HttpPrefix;
  }

  /** The empty URL every new screen starts with reaches the
      "unsupported" alert, whatever the browser. */
  lemma EmptyUrlAlerts(h: bool, n: bool)
    ensures Classify("", h, n) == Unsupported && Alerts(Classify("", h, n))
  {
  }

  /** A URL is handed to a player exactly when it is HLS on a browser that
      can play HLS one way or the other, or an http(s) URL that is not HLS. */
  lemma PlayableCases(url: string, h: bool, n: bool)
    ensures !Alerts(Classify(url, h, n)) <==> (IsHls(url) && (h || n)) || (!IsHls(url) && IsHttp(url))
  {
  }

  /** One video container: its URL field, its player's branch and the
      element's playback position. */
  class Screen {
    var url: string
    var source: Playback
    var paused: bool
    var currentTime: real

    /** The container `addVideoScreen` builds, set up with `url`. */
    constructor (url: string, hlsSupported: bool, canPlayNative: bool)
      ensures this.url == url && source == Classify(url, hlsSupported, canPlayNative)
      ensures paused && currentTime == 0.0
    {
      this.url := url;
      source := Classify(url, hlsSupported, canPlayNative);
      paused := true;
      currentTime := 0.0;
    }

    /** The URL field's `change` event: the player is set up again. */
    method ChangeUrl(newUrl: string, hlsSupported: bool, canPlayNative: bool)
      modifies this`url, this`source
      ensures url == newUrl && source == Classify(newUrl, hlsSupported, canPlayNative)
    {
      url := newUrl;
      source := Classify(newUrl, hlsSupported, canPlayNative);
    }

    method Play()
      modifies this`paused
      ensures !paused
    {
      paused := false;
    }

    method Pause()
      modifies this`paused
      ensures paused
    {
      paused := true;
    }

    /** The stop button: pause, then rewind to the start. */
    method Stop()
      modifies this`paused, this`currentTime
      ensures paused && currentTime == 0.0
    {
      paused := true;
      currentTime := 0.0;
    }
  }

  /** The `video-grid` element and its children. */
  class VideoGrid {
    var screens: seq<Screen>

    predicate Valid()
      reads this
    {
      |screens| <= MaxScreens
    }

    /** The page load: an empty grid gets its first screen, with no URL. */
    constructor (hlsSupported: bool, canPlayNative: bool)
      ensures Valid() && |screens| == 1 && fresh(screens[0])
      ensures screens[0].url == "" && screens[0].source == Unsupported
    {
      screens := [];
      new;
      var added, screen := AddVideoScreen("", hlsSupported, canPlayNative);
      EmptyUrlAlerts(hlsSupported, canPlayNative);
    }

    /** `addVideoScreen(url)`: refused with an alert once the grid holds
        fifteen screens; otherwise exactly one new screen is appended. */
    method AddVideoScreen(url: string, hlsSupported: bool, canPlayNative: bool)
      returns (added: bool, screen: Screen?)
      requires Valid()
      modifies this`screens
      ensures Valid()
      ensures added <==> |old(screens)| < MaxScreens
      ensures added ==> screen != null && fresh(screen) && screens == old(screens) + [screen]
                        && screen.url == url && screen.source == Classify(url, hlsSupported, canPlayNative)
                        && screen.paused && screen.currentTime == 0.0
      ensures !added ==> screen == null && screens == old(screens)
    {
      if |screens| >= MaxScreens {
        return false, null;
      }
      screen := new Screen(url, hlsSupported, canPlayNative);
      screens := screens + [screen];
      added := true;
    }

    /** The "add screen" button, which adds a screen with no URL. */
    method AddScreenClicked(hlsSupported: bool, canPlayNative: bool) returns (added: bool)
      requires Valid()
      modifies this`screens
      ensures Valid()
      ensures added <==> |old(screens)| < MaxScreens
      ensures added ==> |screens| == |old(screens)| + 1 && screens[..|old(screens)|] == old(screens)
                        && screens[|old(screens)|].source == Unsupported
      ensures !added ==> screens == old(screens)
    {
      var screen;
      added, screen := AddVideoScreen("", hlsSupported, canPlayNative);
    }
  }
}
