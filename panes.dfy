/** One video pane (`VideoWidget`, identical in both viewers): its playback
    flags as a state machine over the button and timer events, and the pane
    object that holds those flags next to its two text fields, writing each
    edit of a field through to the state file. */
module Panes {
  import opened Wrappers
  import opened PaneStore
  import opened Storage

  /** What `player.video_get_size(0)` gives: a size, or an exception (which
      `check_black_screen` catches and prints). */
  datatype SizeQuery = Reported(width: int, height: int) | QueryFailed

  datatype PaneEvent =
    | Play(url: string)   // `play`, with the URL field's text
    | Pause
    | Stop                // `stop`; `closeEvent` does the same
    | StallTick(size: SizeQuery)  // `check_black_screen`, run by the 5-second timer
    | ToggleFullscreen
    | RestoreNormalView   // the full-screen window's back button
    | ToggleAudio         // the checkable audio button was clicked
    | CloseFullscreenWindow  // the full-screen window closed from its title bar

  /** Everything the pane's handlers change, apart from the two text fields
      and the VLC player. `meter` is the level bar's value, `None` while the
      bar is in its reset state; `volume` is the last volume set on the
      player, `None` before any; `media` is the URL of the media set on the
      player; `fullscreenPlaying` the media the full-screen player plays. */
  datatype PaneFlags = PaneFlags(
    meterTimer: bool,
    stallTimer: bool,
    meter: Option<int>,
    notified: bool,
    media: Option<string>,
    volume: Option<int>,
    audioChecked: bool,
    isFullscreen: bool,
    fullscreenCreated: bool,
    fullscreenVisible: bool,
    fullscreenPlaying: Option<string>,
    fullscreenButtonVisible: bool)

  /** A pane as its constructor leaves it. */
  const InitialFlags := PaneFlags(false, false, None, false, None, None, false, false, false, false, None, true)

  /** `check_black_screen` shows its warning: the player reports a 0x0
      frame and the pane has not warned since its last stop. */
  predicate Notifies(f: PaneFlags, ev: PaneEvent) {
    ev.StallTick? && ev.size == Reported(0, 0) && !f.notified
  }

  /** `restore_normal_view`: stop the full-screen player, hide its window,
      show the pane's full-screen button again. */
  function Restore(f: PaneFlags): PaneFlags {
    f.(fullscreenPlaying := None, fullscreenVisible := false, isFullscreen := false, fullscreenButtonVisible := true)
  }

  /** The effect of one event on the flags. */
  function Step(f: PaneFlags, ev: PaneEvent): (g: PaneFlags)
    ensures g.notified != f.notified ==> ev.Stop? || ev.StallTick?
    ensures g.media != f.media ==> ev.Play? && g.media == Some(ev.url)
    ensures g.meterTimer != f.meterTimer || g.stallTimer != f.stallTimer ==> ev.Play? || ev.Pause? || ev.Stop?
    ensures g.isFullscreen != f.isFullscreen ==> ev.ToggleFullscreen? || ev.RestoreNormalView?
  {
    match ev
    case Play(url) =>
      if url == "" then f
      else f.(media := Some(url), volume := Some(0), meterTimer := true, stallTimer := true)
    case Pause =>
      f.(meterTimer := false, stallTimer := false)
    case Stop =>
      f.(meterTimer := false, stallTimer := false, meter := Some(0), notified := false)
    case StallTick(_) =>
      if Notifies(f, ev) then f.(notified := true) else f
    case ToggleFullscreen =>
      if f.isFullscreen then Restore(f)
      else f.(fullscreenCreated := true,
              fullscreenPlaying := if f.media.Some? then f.media else f.fullscreenPlaying,
              fullscreenVisible := true, isFullscreen := true, fullscreenButtonVisible := false)
    case RestoreNormalView =>
      if f.fullscreenCreated then Restore(f) else f
    case ToggleAudio =>
      var checked := !f.audioChecked;
      f.(audioChecked := checked, volume := Some(if checked then 100 else 0))
    case CloseFullscreenWindow =>
      f.(fullscreenPlaying := None, fullscreenVisible := false)
  }

  /** The flags after a sequence of events. */
  function Run(f: PaneFlags, evs: seq<PaneEvent>): PaneFlags
    decreases |evs|
  {
    if |evs| == 0 then f else Run(Step(f, evs[0]), evs[1..])
  }

  /** How many black-screen warnings the sequence of events shows. */
  function NotificationCount(f: PaneFlags, evs: seq<PaneEvent>): nat
    decreases |evs|
  {
    if |evs| == 0 then 0
    else (if Notifies(f, evs[0]) then 1 else 0) + NotificationCount(Step(f, evs[0]), evs[1..])
  }

  /** The number the warning shows, `self.index + 1`; a `bool` index adds
      as 0 or 1. */
  function ScreenNumber(i: PyIndex): int {
    match i
    case PyInt(n) => n + 1
    case PyBool(b) => (if b then 1 else 0) + 1
  }

  // ---------------------------------------------------------------------
  // Properties of the state machine

  /** `play` with an empty URL field changes nothing; with a URL it sets the
      media, starts both timers and mutes the player whatever the audio
      button shows, and leaves the warning flag alone. */
  lemma PlayRules(f: PaneFlags, url: string)
    ensures url == "" ==> Step(f, Play(url)) == f
    ensures url != "" ==>
      var g := Step(f, Play(url));
      && g.meterTimer && g.stallTimer && g.media == Some(url) && g.volume == Some(0)
      && g.audioChecked == f.audioChecked && g.notified == f.notified && g.meter == f.meter
  {
  }

  /** `stop` stops both timers, zeroes the meter and re-arms the warning;
      `pause` stops the timers but keeps the warning flag. Doing either
      twice is doing it once. */
  lemma StopAndPauseRules(f: PaneFlags)
    ensures var g := Step(f, Stop);
      !g.meterTimer && !g.stallTimer && g.meter == Some(0) && !g.notified && g.media == f.media
    ensures var g := Step(f, Pause);
      !g.meterTimer && !g.stallTimer && g.notified == f.notified && g.meter == f.meter
    ensures Step(Step(f, Stop), Stop) == Step(f, Stop)
    ensures Step(Step(f, Pause), Pause) == Step(f, Pause)
  {
  }

  /** A warning is shown exactly when the reported frame is 0x0 and no
      warning was shown since the last stop, and showing it sets the flag.
      A failed size query changes nothing. */
  lemma StallTickRules(f: PaneFlags, size: SizeQuery)
    ensures Notifies(f, StallTick(size)) <==> size == Reported(0, 0) && !f.notified
    ensures Notifies(f, StallTick(size)) ==> Step(f, StallTick(size)) == f.(notified := true)
    ensures !Notifies(f, StallTick(size)) ==> Step(f, StallTick(size)) == f
  {
  }

  /** Once the flag is set, only `stop` clears it. */
  lemma NotifiedSticks(f: PaneFlags, ev: PaneEvent)
    requires f.notified && !ev.Stop?
    ensures Step(f, ev).notified
  {
    match ev {
      case ToggleFullscreen =>
        assert Restore(f).notified;
      case RestoreNormalView =>
        assert Restore(f).notified;
      case _ =>
    }
  }

  /** Between two stops the black-screen warning is shown at most once, and
      not at all if it was already shown. */
  lemma {:induction false} AtMostOneNotification(f: PaneFlags, evs: seq<PaneEvent>)
    requires forall k :: 0 <= k < |evs| ==> !evs[k].Stop?
    ensures NotificationCount(f, evs) <= if f.notified then 0 else 1
    decreases |evs|
  {
    if |evs| > 0 {
      var g := Step(f, evs[0]);
      assert forall k :: 0 <= k < |evs[1..]| ==> !evs[1..][k].Stop? by {
        forall k | 0 <= k < |evs[1..]| ensures !evs[1..][k].Stop? {
          assert evs[1..][k] == evs[k + 1];
        }
      }
      AtMostOneNotification(g, evs[1..]);
      if f.notified {
        NotifiedSticks(f, evs[0]);
      } else if Notifies(f, evs[0]) {
        assert g.notified;
      }
    }
  }

  /** After a stop the warning can be shown again: stop, play any URL, a
      0x0 frame is one warning, whatever state the pane was in. */
  lemma {:induction false} StopRearmsNotification(f: PaneFlags, url: string)
    requires url != ""
    ensures NotificationCount(f, [Stop, Play(url), StallTick(Reported(0, 0))]) == 1
  {
    var evs := [Stop, Play(url), StallTick(Reported(0, 0))];
    var f1 := Step(f, Stop);
    var f2 := Step(f1, Play(url));
    assert !Notifies(f, Stop) && !Notifies(f1, Play(url)) && Notifies(f2, StallTick(Reported(0, 0)));
    assert evs[1..] == [Play(url), StallTick(Reported(0, 0))];
    assert evs[1..][1..] == [StallTick(Reported(0, 0))];
    assert NotificationCount(f2, [StallTick(Reported(0, 0))]) == 1;
  }

  /** The full-screen view and the audio button do not touch the playback
      flags (timers, meter, warning flag, media). */
  lemma ViewEventsKeepPlayback(f: PaneFlags, ev: PaneEvent)
    requires ev.ToggleFullscreen? || ev.RestoreNormalView? || ev.ToggleAudio? || ev.CloseFullscreenWindow?
    ensures var g := Step(f, ev);
      g.meterTimer == f.meterTimer && g.stallTimer == f.stallTimer && g.meter == f.meter
      && g.notified == f.notified && g.media == f.media
  {
  }

  /** The flags a pane can be in: the two timers run together, the
      full-screen window is visible only in full-screen mode and exists
      once that mode was entered, and the pane's full-screen button is
      hidden exactly in that mode. */
  predicate Consistent(f: PaneFlags) {
    && f.meterTimer == f.stallTimer
    && (f.fullscreenVisible ==> f.isFullscreen)
    && f.fullscreenButtonVisible == !f.isFullscreen
    && (f.isFullscreen ==> f.fullscreenCreated)
  }

  /** Consistent, and moreover the full-screen window is visible exactly in
      full-screen mode, so one of the two buttons that leave or enter the
      mode is on screen. */
  predicate ViewInStep(f: PaneFlags) {
    Consistent(f) && f.fullscreenVisible == f.isFullscreen
  }

  /** Every event keeps the flags consistent, every event but the
      title-bar close keeps the view in step, and the full-screen toggle
      flips the mode. */
  lemma StepKeepsConsistent(f: PaneFlags, ev: PaneEvent)
    requires Consistent(f)
    ensures Consistent(Step(f, ev))
    ensures ViewInStep(f) && !ev.CloseFullscreenWindow? ==> ViewInStep(Step(f, ev))
    ensures ev.ToggleFullscreen? ==> Step(f, ev).isFullscreen == !f.isFullscreen
    ensures ev.RestoreNormalView? ==> !Step(f, ev).isFullscreen
  {
  }

  lemma {:induction false} RunKeepsConsistent(f: PaneFlags, evs: seq<PaneEvent>)
    requires Consistent(f)
    ensures Consistent(Run(f, evs))
    decreases |evs|
  {
    if |evs| > 0 {
      StepKeepsConsistent(f, evs[0]);
      RunKeepsConsistent(Step(f, evs[0]), evs[1..]);
    }
  }

  lemma InitialIsConsistent()
    ensures Consistent(InitialFlags) && ViewInStep(InitialFlags)
    ensures !InitialFlags.notified && !InitialFlags.meterTimer
  {
  }

  // ---------------------------------------------------------------------
  // Closing the full-screen window from its title bar

  /** As written, the full-screen window's `closeEvent` only stops its
      player: the pane stays in full-screen mode with its full-screen
      button hidden, while the window holding the back button is gone. */
  lemma FullscreenCloseStrandsButton(f: PaneFlags)
    requires ViewInStep(f) && f.isFullscreen
    ensures var g := Step(f, CloseFullscreenWindow);
      && g.isFullscreen && !g.fullscreenVisible && !g.fullscreenButtonVisible
      && g.fullscreenPlaying.None? && !ViewInStep(g)
  {
  }

  /** Only the toggle and the back button bring the full-screen button
      back; the one is that hidden button and the other sits in the closed
      window, so no event the user can still cause shows it again. */
  lemma {:induction false} ButtonStaysHidden(f: PaneFlags, evs: seq<PaneEvent>)
    requires !f.fullscreenButtonVisible
    requires forall k :: 0 <= k < |evs| ==> !evs[k].ToggleFullscreen? && !evs[k].RestoreNormalView?
    ensures !Run(f, evs).fullscreenButtonVisible && Run(f, evs).isFullscreen == f.isFullscreen
    decreases |evs|
  {
    if |evs| > 0 {
      assert forall k :: 0 <= k < |evs[1..]| ==>
               !evs[1..][k].ToggleFullscreen? && !evs[1..][k].RestoreNormalView? by {
        forall k | 0 <= k < |evs[1..]|
          ensures !evs[1..][k].ToggleFullscreen? && !evs[1..][k].RestoreNormalView?
        {
          assert evs[1..][k] == evs[k + 1];
        }
      }
      ButtonStaysHidden(Step(f, evs[0]), evs[1..]);
    }
  }

  /** The close as intended: closing the window does what its back button
      does. */
  function CloseRestoring(f: PaneFlags): PaneFlags {
    Restore(f)
  }

  /** Closing as intended leaves the view in step with the full-screen
      button shown, the playback untouched, and the toggle able to reopen
      the window. */
  lemma CloseRestoringKeepsView(f: PaneFlags)
    requires ViewInStep(f)
    ensures var g := CloseRestoring(f);
      && ViewInStep(g) && g.fullscreenButtonVisible && !g.isFullscreen && !g.fullscreenVisible
      && g.fullscreenPlaying.None?
      && g.meterTimer == f.meterTimer && g.notified == f.notified && g.media == f.media
      && Step(g, ToggleFullscreen).fullscreenVisible
  {
  }

  // ---------------------------------------------------------------------
  // The pane object

  class Pane {
    /** The `index` it was created with, the window it belongs to, and the
        files and viewer it saves through. */
    const index: PyIndex
    const windowNumber: int
    const disk: Disk
    const edition: Edition

    /** The text of the URL field and the name field. */
    var urlText: string
    var nameText: string

    var meterTimer: bool
    var stallTimer: bool
    var meter: Option<int>
    var notified: bool
    var media: Option<string>
    var volume: Option<int>
    var audioChecked: bool
    var isFullscreen: bool
    var fullscreenCreated: bool
    var fullscreenVisible: bool
    var fullscreenPlaying: Option<string>
    var fullscreenButtonVisible: bool

    function Flags(): PaneFlags
      reads this
    {
      PaneFlags(meterTimer, stallTimer, meter, notified, media, volume, audioChecked,
                isFullscreen, fullscreenCreated, fullscreenVisible, fullscreenPlaying, fullscreenButtonVisible)
    }

    /** The pane's flags are in a reachable state; in particular a pane in
        full-screen mode has its full-screen window, as `ToggleFullscreen`
        needs. */
    predicate Valid()
      reads this
    {
      Consistent(Flags())
    }

    /** `VideoWidget.__init__`: fresh flags and empty fields, then
        `load_url()` and `load_name()`, which fill the fields from the state
        file (the combined viewer creating it when missing). */
    constructor (index: PyIndex, windowNumber: int, disk: Disk, edition: Edition)
      requires disk.Resolvable(edition)
      modifies disk
      ensures this.index == index && this.windowNumber == windowNumber
      ensures this.disk == disk && this.edition == edition
      ensures Flags() == InitialFlags && Valid()
      ensures disk.config == PersistedConfig(edition, old(disk.config))
      ensures var p := UrlsPathOf(edition, old(disk.config)).value;
              var s := old(disk.StateAt(p));
              && urlText == GetUrl(s, windowNumber, index).GetOr("")
              && nameText == GetName(s, windowNumber, index).GetOr("")
              && disk.stateFiles == FilesAfterLoad(edition, old(disk.stateFiles), p)
    {
      this.index := index;
      this.windowNumber := windowNumber;
      this.disk := disk;
      this.edition := edition;
      urlText, nameText := "", "";
      meterTimer, stallTimer, meter, notified := false, false, None, false;
      media, volume, audioChecked := None, None, false;
      isFullscreen, fullscreenCreated, fullscreenVisible := false, false, false;
      fullscreenPlaying, fullscreenButtonVisible := None, true;
      new;
      ghost var p := UrlsPathOf(edition, old(disk.config)).value;
      var ok := LoadUrl();
      FilesAfterLoadIdempotent(edition, old(disk.stateFiles), p);
      ok := LoadName();
    }

    /** The URL field's text becomes `t` (typed, or set by `load_url`).
        Qt signals `textChanged` only when the text differs, and the signal
        runs `save_url`; `ok` is false where that save raises KeyError. */
    method SetUrlText(t: string) returns (ok: bool)
      modifies this, disk
      ensures old(Valid()) ==> Valid()
      ensures urlText == t && nameText == old(nameText) && Flags() == old(Flags())
      ensures t == old(urlText) ==> ok && disk.config == old(disk.config) && disk.stateFiles == old(disk.stateFiles)
      ensures t != old(urlText) ==>
        && disk.config == PersistedConfig(edition, old(disk.config))
        && ok == old(disk.Resolvable(edition))
        && (ok ==> var p := UrlsPathOf(edition, old(disk.config)).value;
                   disk.stateFiles == old(disk.stateFiles)[p := WithUrl(old(disk.StateAt(p)), windowNumber, index, t)])
        && (!ok ==> disk.stateFiles == old(disk.stateFiles))
    {
      if t != urlText {
        urlText := t;
        ok := disk.SaveUrl(edition, windowNumber, index, t);
      } else {
        ok := true;
      }
    }

    /** The name field's text becomes `t`; a change runs `save_name`. */
    method SetNameText(t: string) returns (ok: bool)
      modifies this, disk
      ensures old(Valid()) ==> Valid()
      ensures nameText == t && urlText == old(urlText) && Flags() == old(Flags())
      ensures t == old(nameText) ==> ok && disk.config == old(disk.config) && disk.stateFiles == old(disk.stateFiles)
      ensures t != old(nameText) ==>
        && disk.config == PersistedConfig(edition, old(disk.config))
        && ok == old(disk.Resolvable(edition))
        && (ok ==> var p := UrlsPathOf(edition, old(disk.config)).value;
                   disk.stateFiles == old(disk.stateFiles)[p := WithName(old(disk.StateAt(p)), windowNumber, index, t)])
        && (!ok ==> disk.stateFiles == old(disk.stateFiles))
    {
      if t != nameText {
        nameText := t;
        ok := disk.SaveName(edition, windowNumber, index, t);
      } else {
        ok := true;
      }
    }

    /** `load_url`: if the state file has a URL for this pane, put it in
        the field. The field's change signal saves the same URL back, which
        leaves the file as the load left it. */
    method LoadUrl() returns (ok: bool)
      modifies this, disk
      ensures old(Valid()) ==> Valid()
      ensures disk.config == PersistedConfig(edition, old(disk.config))
      ensures ok == old(disk.Resolvable(edition))
      ensures ok ==> var p := UrlsPathOf(edition, old(disk.config)).value;
                     var s := old(disk.StateAt(p));
                     && urlText == GetUrl(s, windowNumber, index).GetOr(old(urlText))
                     && disk.stateFiles == FilesAfterLoad(edition, old(disk.stateFiles), p)
      ensures !ok ==> disk.stateFiles == old(disk.stateFiles) && urlText == old(urlText)
      ensures nameText == old(nameText) && Flags() == old(Flags())
    {
      var state;
      ok, state := disk.LoadUrls(edition);
      if !ok {
        return;
      }
      ghost var p := UrlsPathOf(edition, old(disk.config)).value;
      ghost var afterLoad := disk.stateFiles;
      var stored := GetUrl(state, windowNumber, index);
      if stored.Some? {
        UrlRewriteIsIdentity(state, windowNumber, index, stored.value);
        ok := SetUrlText(stored.value);
        assert p in afterLoad && afterLoad[p] == state;
        assert afterLoad[p := state] == afterLoad;
      }
    }

    /** `load_name`: as LoadUrl, for the name field. */
    method LoadName() returns (ok: bool)
      modifies this, disk
      ensures old(Valid()) ==> Valid()
      ensures disk.config == PersistedConfig(edition, old(disk.config))
      ensures ok == old(disk.Resolvable(edition))
      ensures ok ==> var p := UrlsPathOf(edition, old(disk.config)).value;
                     var s := old(disk.StateAt(p));
                     && nameText == GetName(s, windowNumber, index).GetOr(old(nameText))
                     && disk.stateFiles == FilesAfterLoad(edition, old(disk.stateFiles), p)
      ensures !ok ==> disk.stateFiles == old(disk.stateFiles) && nameText == old(nameText)
      ensures urlText == old(urlText) && Flags() == old(Flags())
    {
      var state;
      ok, state := disk.LoadUrls(edition);
      if !ok {
        return;
      }
      ghost var p := UrlsPathOf(edition, old(disk.config)).value;
      ghost var afterLoad := disk.stateFiles;
      var stored := GetName(state, windowNumber, index);
      if stored.Some? {
        NameRewriteIsIdentity(state, windowNumber, index, stored.value);
        ok := SetNameText(stored.value);
        assert p in afterLoad && afterLoad[p] == state;
        assert afterLoad[p := state] == afterLoad;
      }
    }

    /** `play`: rejected (a warning) when the URL field is empty. */
    method Play() returns (rejected: bool)
      modifies this
      ensures old(Valid()) ==> Valid()
      ensures rejected <==> urlText == ""
      ensures Flags() == Step(old(Flags()), PaneEvent.Play(urlText))
      ensures urlText == old(urlText) && nameText == old(nameText)
    {
      if urlText != "" {
        media := Some(urlText);
        volume := Some(0);
        meterTimer, stallTimer := true, true;
        rejected := false;
      } else {
        rejected := true;
      }
    }

    method Pause()
      modifies this
      ensures old(Valid()) ==> Valid()
      ensures Flags() == Step(old(Flags()), PaneEvent.Pause)
      ensures urlText == old(urlText) && nameText == old(nameText)
    {
      meterTimer, stallTimer := false, false;
    }

    method Stop()
      modifies this
      ensures old(Valid()) ==> Valid()
      ensures Flags() == Step(old(Flags()), PaneEvent.Stop)
      ensures urlText == old(urlText) && nameText == old(nameText)
    {
      meterTimer, stallTimer := false, false;
      meter := Some(0);
      notified := false;
    }

    /** `check_black_screen` and `notify_black_screen`: the warning, with
        the screen number it shows, when one is shown. */
    method CheckBlackScreen(size: SizeQuery) returns (warning: Option<int>)
      modifies this
      ensures old(Valid()) ==> Valid()
      ensures warning.Some? <==> Notifies(old(Flags()), PaneEvent.StallTick(size))
      ensures warning.Some? ==> warning.value == ScreenNumber(index)
      ensures Flags() == Step(old(Flags()), PaneEvent.StallTick(size))
      ensures urlText == old(urlText) && nameText == old(nameText)
    {
      warning := None;
      if size.Reported? {
        if size == Reported(0, 0) && !notified {
          notified := true;
          warning := Some(ScreenNumber(index));
        }
      }
    }

    /** `restore_normal_view` of the full-screen window. */
    method RestoreNormalView()
      requires fullscreenCreated
      modifies this
      ensures old(Valid()) ==> Valid()
      ensures Flags() == Step(old(Flags()), PaneEvent.RestoreNormalView)
      ensures urlText == old(urlText) && nameText == old(nameText)
    {
      fullscreenPlaying := None;
      fullscreenVisible := false;
      isFullscreen := false;
      fullscreenButtonVisible := true;
    }

    method ToggleFullscreen()
      requires isFullscreen ==> fullscreenCreated
      modifies this
      ensures old(Valid()) ==> Valid()
      ensures Flags() == Step(old(Flags()), PaneEvent.ToggleFullscreen)
      ensures urlText == old(urlText) && nameText == old(nameText)
    {
      if !isFullscreen {
        fullscreenCreated := true;
        if media.Some? {
          fullscreenPlaying := media;
        }
        fullscreenVisible := true;
        isFullscreen := true;
        fullscreenButtonVisible := false;
      } else {
        RestoreNormalView();
      }
    }

    method ToggleAudio()
      modifies this
      ensures old(Valid()) ==> Valid()
      ensures Flags() == Step(old(Flags()), PaneEvent.ToggleAudio)
      ensures urlText == old(urlText) && nameText == old(nameText)
    {
      audioChecked := !audioChecked;
      if audioChecked {
        volume := Some(100);
      } else {
        volume := Some(0);
      }
    }

    /** `FullScreenWindow.closeEvent`: the full-screen player stops and is
        released, and the window closes; nothing else changes. */
    method CloseFullscreenWindow()
      modifies this
      ensures old(Valid()) ==> Valid()
      ensures Flags() == Step(old(Flags()), PaneEvent.CloseFullscreenWindow)
      ensures urlText == old(urlText) && nameText == old(nameText)
    {
      fullscreenPlaying := None;
      fullscreenVisible := false;
    }

    /** `closeEvent`: the pane stops (the player is then released). */
    method Close()
      modifies this
      ensures old(Valid()) ==> Valid()
      ensures Flags() == Step(old(Flags()), PaneEvent.Stop)
      ensures urlText == old(urlText) && nameText == old(nameText)
    {
      Stop();
    }
  }
}
