/** The viewer window (`MainWindow`, the same in both viewers): its pane
    list, capped at 15 and laid out on a 4-column grid; the class-level
    window counter and registry shared by all windows; the admin-mode
    password gate; and the standalone viewer's start-up. */
module Windows {
  import opened Wrappers
  import Config
  import opened PaneStore
  import opened Storage
  import opened Panes

  const MaxWidgets := 15
  const MaxWindows := 5
  const GridColumns := 4
  const AdminPassword := "admin"
  /** The pane count of `MainWindow()` and of `add_new_window`. */
  const DefaultPanes := 8

  function Min(a: int, b: int): int {
    if a <= b then a else b
  }

  function Max(a: int, b: int): int {
    if a <= b then b else a
  }

  /** Grid position of the pane that makes the list `k + 1` long:
      row `(n - 1) // 4`, column `(n - 1) % 4` with `n == k + 1`. */
  function GridCell(k: nat): (rc: (int, int))
    ensures 0 <= rc.0 && 0 <= rc.1 < GridColumns && rc.0 * GridColumns + rc.1 == k
  {
    (k / GridColumns, k % GridColumns)
  }

  /** Panes fill the grid row by row, four to a row, each at its own cell;
      the 15 panes a window can hold occupy rows 0 to 3, the last row three
      cells of it. */
  lemma GridCellFacts(j: nat, k: nat)
    ensures 0 <= GridCell(k).1 < GridColumns && GridCell(k).0 * GridColumns + GridCell(k).1 == k
    ensures GridCell(j) == GridCell(k) ==> j == k
    ensures k < MaxWidgets ==> 0 <= GridCell(k).0 <= 3
    ensures k < MaxWidgets && GridCell(k).0 == 3 ==> GridCell(k).1 < 3
  {
  }

  /** `list.remove(x)` guarded by `x in list`: the first occurrence goes. */
  function RemoveFirst<T(==)>(s: seq<T>, x: T): (r: seq<T>)
    ensures x !in s ==> r == s
    ensures x in s ==> |r| == |s| - 1
    ensures forall y :: y in r ==> y in s
    decreases |s|
  {
    if |s| == 0 then s
    else if s[0] == x then s[1..]
    else [s[0]] + RemoveFirst(s[1..], x)
  }

  /** Position of the first occurrence of `x` in `s`. */
  function FirstIndex<T(==)>(s: seq<T>, x: T): (i: nat)
    requires x in s
    ensures i < |s| && s[i] == x && x !in s[..i]
    decreases |s|
  {
    if s[0] == x then 0
    else
      var i := 1 + FirstIndex(s[1..], x);
      assert s[..i] == [s[0]] + s[1..][..i - 1];
      i
  }

  lemma {:induction false} RemoveFirstAbsent<T>(s: seq<T>, x: T)
    requires x !in s
    ensures RemoveFirst(s, x) == s
    decreases |s|
  {
    if |s| > 0 {
      RemoveFirstAbsent(s[1..], x);
      assert [s[0]] + s[1..] == s;
    }
  }

  lemma {:induction false} RemoveFirstAt<T>(s: seq<T>, x: T)
    requires x in s
    ensures RemoveFirst(s, x) == s[..FirstIndex(s, x)] + s[FirstIndex(s, x) + 1..]
    decreases |s|
  {
    if s[0] != x {
      var t := s[1..];
      assert x in t;
      var j := FirstIndex(t, x);
      RemoveFirstAt(t, x);
      assert t[..j] == s[1..j + 1] && t[j + 1..] == s[j + 2..];
      assert [s[0]] + s[1..j + 1] == s[..j + 1];
    }
  }

  /** Removing a window that is not registered leaves the registry as it
      is; otherwise exactly its first occurrence goes and the others keep
      their order. */
  lemma RemoveFirstSpec<T>(s: seq<T>, x: T)
    ensures x !in s ==> RemoveFirst(s, x) == s
    ensures x in s ==>
      var i := FirstIndex(s, x);
      RemoveFirst(s, x) == s[..i] + s[i + 1..] && |RemoveFirst(s, x)| == |s| - 1
  {
    if x in s {
      RemoveFirstAt(s, x);
    } else {
      RemoveFirstAbsent(s, x);
    }
  }

  /** The class attributes `ventana_count` and `ventanas_abiertas`. */
  class App {
    var windowCount: int
    var openWindows: seq<Window>

    constructor ()
      ensures windowCount == 1 && openWindows == []
    {
      windowCount := 1;
      openWindows := [];
    }
  }

  class Window {
    const app: App
    const disk: Disk
    const edition: Edition
    /** `ventana_count` when the window was made. */
    const windowNumber: int
    /** `video_widgets`, and the grid cell each was placed at. */
    var panes: seq<Pane>
    var cells: seq<(int, int)>

    /** At most 15 distinct panes, each at the grid cell of its position
        and saving under this window's number to this window's files. */
    predicate Valid()
      reads this
    {
      && |panes| <= MaxWidgets
      && |cells| == |panes|
      && OnGrid(cells)
      && Owned(panes, windowNumber, disk, edition)
      && Distinct(panes)
    }

    /** `MainWindow(num_widgets)`: take the next window number, then
        `add_initial_widgets(num_widgets)`. */
    constructor (app: App, disk: Disk, edition: Edition, numWidgets: int)
      requires disk.Resolvable(edition)
      modifies app, disk
      ensures this.app == app && this.disk == disk && this.edition == edition
      ensures windowNumber == old(app.windowCount) && app.windowCount == old(app.windowCount) + 1
      ensures app.openWindows == old(app.openWindows)
      ensures Valid()
      ensures |panes| == Min(Max(numWidgets, 0), MaxWidgets)
      ensures var p := UrlsPathOf(edition, old(disk.config)).value;
              var s := old(disk.StateAt(p));
              && (forall k :: 0 <= k < |panes| ==> fresh(panes[k])) && AllLoadedFrom(panes, 0, s)
              && (numWidgets > 0 ==> disk.stateFiles == old(disk.stateFiles)[p := WithLayout(s, windowNumber, |panes|)])
      ensures numWidgets > 0 ==> disk.config == PersistedConfig(edition, old(disk.config))
      ensures numWidgets <= 0 ==> disk.config == old(disk.config) && disk.stateFiles == old(disk.stateFiles)
    {
      this.app := app;
      this.disk := disk;
      this.edition := edition;
      this.windowNumber := app.windowCount;
      panes := [];
      cells := [];
      new;
      app.windowCount := app.windowCount + 1;
      AddInitialWidgets(numWidgets);
    }

    /** `save_layout_state()`: record `len(self.video_widgets)`. */
    method SaveLayoutState() returns (ok: bool)
      modifies disk
      ensures disk.config == PersistedConfig(edition, old(disk.config))
      ensures ok == old(disk.Resolvable(edition))
      ensures ok ==> var p := UrlsPathOf(edition, old(disk.config)).value;
                     disk.stateFiles == old(disk.stateFiles)[p := WithLayout(old(disk.StateAt(p)), windowNumber, |panes|)]
      ensures !ok ==> disk.stateFiles == old(disk.stateFiles)
    {
      ok := disk.SaveLayoutState(edition, windowNumber, |panes|);
    }

    /** `load_layout_state()` for this window's number. */
    method LoadLayoutState() returns (ok: bool, n: int)
      modifies disk
      ensures disk.config == PersistedConfig(edition, old(disk.config)) && disk.stateFiles == old(disk.stateFiles)
      ensures ok == old(disk.Resolvable(edition))
      ensures ok ==> n == GetLayout(old(disk.StateAt(UrlsPathOf(edition, disk.config).value)), windowNumber)
    {
      ok, n := disk.LoadLayoutState(edition, windowNumber);
    }

    /** `add_video_widget(index)`: below 15 panes, a new pane with `index`
        (or, when `None`, its position) is appended and placed at the next
        grid cell, and the new count is saved; at 15 nothing changes. */
    method AddVideoWidget(index: Option<PyIndex>) returns (added: bool)
      requires Valid() && disk.Resolvable(edition)
      modifies this, disk
      ensures Valid()
      ensures added <==> |old(panes)| < MaxWidgets
      ensures added ==>
        && |panes| == |old(panes)| + 1 && panes == old(panes) + [panes[|old(panes)|]]
        && var q := panes[|old(panes)|];
           var p := UrlsPathOf(edition, old(disk.config)).value;
           var s := old(disk.StateAt(p));
           && fresh(q) && LoadedFrom(q, s, index.GetOr(PyInt(|old(panes)|)))
           && cells[|old(panes)|] == ((|panes| - 1) / 4, (|panes| - 1) % 4)
           && disk.stateFiles == old(disk.stateFiles)[p := WithLayout(s, windowNumber, |panes|)]
           && disk.config == PersistedConfig(edition, old(disk.config))
      ensures !added ==>
        && panes == old(panes) && cells == old(cells)
        && disk.config == old(disk.config) && disk.stateFiles == old(disk.stateFiles)
    {
      if |panes| < MaxWidgets {
        var idx := if index.Some? then index.value else PyInt(|panes|);
        ghost var p := UrlsPathOf(edition, disk.config).value;
        ghost var before := disk.stateFiles;
        var pane := new Pane(idx, windowNumber, disk, edition);
        AppendKeepsShape(panes, cells, pane, windowNumber, disk, edition);
        var n := |panes| + 1;
        var row := (n - 1) / GridColumns;
        var col := (n - 1) % GridColumns;
        panes, cells := panes + [pane], cells + [(row, col)];
        var ok := SaveLayoutState();
        WriteAfterLoad(edition, before, p, WithLayout(StateIn(before, p), windowNumber, |panes|));
        added := true;
      } else {
        added := false;
      }
    }

    /** `add_initial_widgets(num_widgets)`: `add_video_widget(i)` for each
        `i` in `range(num_widgets)`; adds past the 15th are refused. */
    method AddInitialWidgets(numWidgets: int)
      requires Valid() && disk.Resolvable(edition)
      modifies this, disk
      ensures Valid()
      ensures |panes| == Min(|old(panes)| + Max(numWidgets, 0), MaxWidgets)
      ensures panes[..|old(panes)|] == old(panes)
      ensures var m := |old(panes)|;
              var p := UrlsPathOf(edition, old(disk.config)).value;
              var s := old(disk.StateAt(p));
              && (forall k :: m <= k < |panes| ==> fresh(panes[k])) && AllLoadedFrom(panes, m, s)
              && (|panes| > m ==> disk.stateFiles == old(disk.stateFiles)[p := WithLayout(s, windowNumber, |panes|)]
                                  && disk.config == PersistedConfig(edition, old(disk.config)))
              && (|panes| == m ==> disk.stateFiles == old(disk.stateFiles) && disk.config == old(disk.config))
    {
      ghost var m := |panes|;
      ghost var p := UrlsPathOf(edition, disk.config).value;
      ghost var s := disk.StateAt(p);
      var i := 0;
      while i < numWidgets
        invariant 0 <= i <= Max(numWidgets, 0)
        invariant Valid() && disk.Resolvable(edition)
        invariant |panes| == Min(m + i, MaxWidgets)
        invariant panes[..m] == old(panes)
        invariant UrlsPathOf(edition, disk.config).value == p
        invariant forall k :: m <= k < |panes| ==> fresh(panes[k])
        invariant AllLoadedFrom(panes, m, s)
        invariant |panes| > m ==> disk.stateFiles == old(disk.stateFiles)[p := WithLayout(s, windowNumber, |panes|)]
                                  && disk.config == PersistedConfig(edition, old(disk.config))
        invariant |panes| == m ==> disk.stateFiles == old(disk.stateFiles) && disk.config == old(disk.config)
      {
        ghost var prev := panes;
        AddInitialWidget(i, m, p, s, old(disk.stateFiles), old(disk.config));
        assert panes[..m] == prev[..m];
        i := i + 1;
      }
    }

    /** Round `i` of `add_initial_widgets`, stated against the state file
        `s` and the files `files0` and configuration `config0` the loop
        started from, `m` panes having been there before it. */
    method AddInitialWidget(i: int, ghost m: int, ghost p: string, ghost s: PaneState,
                            ghost files0: map<string, PaneState>, ghost config0: Option<Config.ConfigMap>)
      requires Valid() && disk.Resolvable(edition) && 0 <= i && 0 <= m
      requires |panes| == Min(m + i, MaxWidgets)
      requires UrlsPathOf(edition, disk.config).value == p && StateIn(files0, p) == s
      requires AllLoadedFrom(panes, m, s)
      requires |panes| > m ==> disk.stateFiles == files0[p := WithLayout(s, windowNumber, |panes|)]
                               && disk.config == PersistedConfig(edition, config0)
      requires |panes| == m ==> disk.stateFiles == files0 && disk.config == config0
      modifies this, disk
      ensures Valid() && disk.Resolvable(edition)
      ensures |panes| == Min(m + i + 1, MaxWidgets)
      ensures |panes| == |old(panes)| ==> panes == old(panes)
      ensures |panes| != |old(panes)| ==> panes == old(panes) + [panes[|old(panes)|]] && fresh(panes[|old(panes)|])
      ensures UrlsPathOf(edition, disk.config).value == p
      ensures AllLoadedFrom(panes, m, s)
      ensures |panes| > m ==> disk.stateFiles == files0[p := WithLayout(s, windowNumber, |panes|)]
                              && disk.config == PersistedConfig(edition, config0)
      ensures |panes| == m ==> disk.stateFiles == files0 && disk.config == config0
    {
      ghost var prev := panes;
      ghost var files := disk.stateFiles;
      var added := AddVideoWidget(Some(PyInt(i)));
      if added {
        ghost var n := |prev|;
        ghost var q := panes[n];
        if n > m {
          assert StateIn(files, p) == WithLayout(s, windowNumber, n);
          LoadedAfterLayout(q, s, windowNumber, n, PyInt(i));
        }
        LayoutStep(files0, files, p, s, windowNumber, m, n);
        AllLoadedAppend(prev, q, m, s);
      }
    }

    /** The "Agregar Pantalla" button as connected: Qt's `clicked(checked)`
        passes `checked == False` as `index`. */
    method AddScreenClicked() returns (added: bool)
      requires Valid() && disk.Resolvable(edition)
      modifies this, disk
      ensures Valid()
      ensures added <==> |old(panes)| < MaxWidgets
      ensures added ==> |panes| == |old(panes)| + 1 && panes[|old(panes)|].index == PyBool(false)
      ensures !added ==> panes == old(panes)
    {
      added := AddVideoWidget(Some(PyBool(false)));
    }

    /** The button as intended: `add_video_widget()` with no argument, so
        the new pane is indexed by its position. */
    method AddScreen() returns (added: bool)
      requires Valid() && disk.Resolvable(edition)
      modifies this, disk
      ensures Valid()
      ensures added <==> |old(panes)| < MaxWidgets
      ensures added ==> |panes| == |old(panes)| + 1 && panes[|old(panes)|].index == PyInt(|old(panes)|)
      ensures !added ==> panes == old(panes)
      ensures IndexedByPosition(old(panes)) ==> IndexedByPosition(panes)
    {
      added := AddVideoWidget(None);
    }

    /** `add_new_window()`: below 5 registered windows, a new 8-pane window
        is made (taking the next number) and registered. */
    method AddNewWindow() returns (w: Window?)
      requires disk.Resolvable(edition)
      modifies app, disk
      ensures w != null <==> |old(app.openWindows)| < MaxWindows
      ensures w != null ==>
        && fresh(w) && w.Valid() && |w.panes| == DefaultPanes
        && w.app == app && w.disk == disk && w.edition == edition
        && w.windowNumber == old(app.windowCount) && app.windowCount == old(app.windowCount) + 1
        && app.openWindows == old(app.openWindows) + [w]
        && var p := UrlsPathOf(edition, old(disk.config)).value;
           var s := old(disk.StateAt(p));
           && AllLoadedFrom(w.panes, 0, s)
           && disk.stateFiles == old(disk.stateFiles)[p := WithLayout(s, w.windowNumber, DefaultPanes)]
           && disk.config == PersistedConfig(edition, old(disk.config))
      ensures w == null ==>
        && app.windowCount == old(app.windowCount) && app.openWindows == old(app.openWindows)
        && disk.config == old(disk.config) && disk.stateFiles == old(disk.stateFiles)
    {
      if |app.openWindows| < MaxWindows {
        w := new Window(app, disk, edition, DefaultPanes);
        app.openWindows := app.openWindows + [w];
      } else {
        w := null;
      }
    }

    /** The loop of `closeEvent`: `video_widget.close()` for every pane. */
    method ClosePanes()
      requires Distinct(panes)
      modifies panes
      ensures forall k :: 0 <= k < |panes| ==>
                && panes[k].Flags() == Step(old(panes[k].Flags()), Stop)
                && panes[k].urlText == old(panes[k].urlText) && panes[k].nameText == old(panes[k].nameText)
    {
      var k := 0;
      while k < |panes|
        invariant 0 <= k <= |panes|
        invariant forall j :: 0 <= j < k ==> panes[j].Flags() == Step(old(panes[j].Flags()), Stop)
        invariant forall j :: k <= j < |panes| ==> panes[j].Flags() == old(panes[j].Flags())
        invariant forall j :: 0 <= j < |panes| ==>
                    panes[j].urlText == old(panes[j].urlText) && panes[j].nameText == old(panes[j].nameText)
      {
        panes[k].Close();
        k := k + 1;
      }
    }

    /** `closeEvent`: close (stop) every pane, drop this window from the
        registry if it is there, and decrement the counter in any case. */
    method CloseEvent()
      requires Valid()
      modifies app, panes
      ensures panes == old(panes)
      ensures forall k :: 0 <= k < |panes| ==>
                && panes[k].Flags() == Step(old(panes[k].Flags()), Stop)
                && panes[k].urlText == old(panes[k].urlText) && panes[k].nameText == old(panes[k].nameText)
      ensures app.openWindows == RemoveFirst(old(app.openWindows), this)
      ensures app.windowCount == old(app.windowCount) - 1
    {
      ClosePanes();
      if this in app.openWindows {
        app.openWindows := RemoveFirst(app.openWindows, this);
      } else {
        RemoveFirstSpec(app.openWindows, this);
      }
      app.windowCount := app.windowCount - 1;
    }

    /** `activate_admin_mode(password)`, with the dialog's answer (`None`
        when cancelled). Only "admin" is accepted; the combined viewer then
        builds its admin window, whose `load_config` writes the defaults
        when the configuration is missing (the standalone viewer starts the
        admin program instead), and this window closes. */
    method ActivateAdminMode(answer: Option<string>) returns (granted: bool)
      requires Valid()
      modifies app, panes, disk
      ensures granted <==> answer == Some(AdminPassword)
      ensures panes == old(panes)
      ensures granted ==>
        && disk.config == PersistedConfig(edition, old(disk.config)) && disk.stateFiles == old(disk.stateFiles)
        && app.openWindows == RemoveFirst(old(app.openWindows), this)
        && app.windowCount == old(app.windowCount) - 1
        && forall k :: 0 <= k < |panes| ==>
             && panes[k].Flags() == Step(old(panes[k].Flags()), Stop)
             && panes[k].urlText == old(panes[k].urlText) && panes[k].nameText == old(panes[k].nameText)
      ensures !granted ==>
        && disk.config == old(disk.config) && disk.stateFiles == old(disk.stateFiles)
        && app.openWindows == old(app.openWindows) && app.windowCount == old(app.windowCount)
        && forall k :: 0 <= k < |panes| ==>
             && panes[k].Flags() == old(panes[k].Flags())
             && panes[k].urlText == old(panes[k].urlText) && panes[k].nameText == old(panes[k].nameText)
    {
      granted := answer.Some? && answer.value == AdminPassword;
      if granted {
        if edition.Combined? {
          var cfg := disk.LoadConfigPersisting(edition.os);
        }
        CloseEvent();
      }
    }
  }

  predicate Distinct(panes: seq<Pane>) {
    forall j, k :: 0 <= j < k < |panes| ==> panes[j] != panes[k]
  }

  /** Each pane saves under window number `w` to the files `disk`. */
  predicate Owned(panes: seq<Pane>, w: int, disk: Disk, edition: Edition) {
    forall k :: 0 <= k < |panes| ==> panes[k].windowNumber == w && panes[k].disk == disk && panes[k].edition == edition
  }

  /** The k-th recorded cell is the grid cell of position k. */
  predicate OnGrid(cells: seq<(int, int)>) {
    forall k :: 0 <= k < |cells| ==> cells[k] == GridCell(k)
  }

  lemma AppendKeepsShape(panes: seq<Pane>, cells: seq<(int, int)>, q: Pane, w: int, disk: Disk, edition: Edition)
    requires Distinct(panes) && q !in panes
    requires OnGrid(cells) && |cells| == |panes|
    requires Owned(panes, w, disk, edition) && q.windowNumber == w && q.disk == disk && q.edition == edition
    ensures Distinct(panes + [q])
    ensures OnGrid(cells + [GridCell(|cells|)])
    ensures Owned(panes + [q], w, disk, edition)
  {
  }

  /** One more layout save during `add_initial_widgets`, on the files as
      they were before the first one: the new count replaces the old, and
      the window's state read back is `s` as it was, or with the previous
      count. */
  lemma LayoutStep(files0: map<string, PaneState>, files: map<string, PaneState>,
                   p: string, s: PaneState, w: int, m: int, n: int)
    requires StateIn(files0, p) == s
    requires n > m ==> files == files0[p := WithLayout(s, w, n)]
    requires n <= m ==> files == files0
    ensures files[p := WithLayout(StateIn(files, p), w, n + 1)] == files0[p := WithLayout(s, w, n + 1)]
  {
    if n > m {
      LayoutOverwrite(s, w, n, n + 1);
    }
  }

  /** A pane just made with index `idx`: fresh flags, and the fields
      filled from the state `s` of its window's file. */
  predicate LoadedFrom(q: Pane, s: PaneState, idx: PyIndex)
    reads q
  {
    && q.index == idx && q.Flags() == InitialFlags
    && q.urlText == GetUrl(s, q.windowNumber, idx).GetOr("")
    && q.nameText == GetName(s, q.windowNumber, idx).GetOr("")
  }

  /** Panes `from`, `from + 1`, ... were made with indexes 0, 1, ... from
      the state `s`. */
  predicate AllLoadedFrom(panes: seq<Pane>, from: int, s: PaneState)
    reads set k | 0 <= k < |panes| :: panes[k]
  {
    forall k :: 0 <= from <= k < |panes| ==> LoadedFrom(panes[k], s, PyInt(k - from))
  }

  /** A layout save does not change what a pane loads. */
  lemma LoadedAfterLayout(q: Pane, s: PaneState, w: int, n: int, idx: PyIndex)
    requires q.windowNumber == w && LoadedFrom(q, WithLayout(s, w, n), idx)
    ensures LoadedFrom(q, s, idx)
  {
    LayoutRoundTrip(s, w, n, w, idx);
  }

  lemma AllLoadedAppend(prev: seq<Pane>, q: Pane, from: int, s: PaneState)
    requires 0 <= from <= |prev| && AllLoadedFrom(prev, from, s)
    requires LoadedFrom(q, s, PyInt(|prev| - from))
    ensures AllLoadedFrom(prev + [q], from, s)
  {
    assert forall k :: 0 <= k < |prev| ==> (prev + [q])[k] == prev[k];
  }

  /** Every pane's index is its position in the list, so the panes' keys
      in the state file are distinct. */
  predicate IndexedByPosition(panes: seq<Pane>) {
    forall k :: 0 <= k < |panes| ==> panes[k].index == PyInt(k)
  }

  // ---------------------------------------------------------------------
  // The standalone viewer's start-up

  /** multiviewer.py's `__main__` as written: a first window is built only
      to ask it for the saved layout, and its construction has just saved
      its own eight panes under its number, so the answer is always 8. The
      window shown is the second one made. */
  method StandaloneMainAsWritten(app: App, disk: Disk, urlsFile: string) returns (shown: Window, initial: int)
    modifies app, disk
    ensures initial == DefaultLayout
    ensures shown.windowNumber == old(app.windowCount) + 1
    ensures shown.Valid() && |shown.panes| == DefaultLayout
  {
    var edition := Standalone(urlsFile);
    var probe := new Window(app, disk, edition, DefaultPanes);
    LayoutRoundTrip(old(disk.StateAt(urlsFile)), probe.windowNumber, DefaultPanes, probe.windowNumber, PyInt(0));
    var ok;
    ok, initial := probe.LoadLayoutState();
    shown := new Window(app, disk, edition, initial);
  }

  /** The start-up as intended: read the saved pane count of the window
      about to be made, then make that window with it. */
  method StandaloneMain(app: App, disk: Disk, urlsFile: string) returns (shown: Window, initial: int)
    modifies app, disk
    ensures initial == GetLayout(old(disk.StateAt(urlsFile)), old(app.windowCount))
    ensures shown.windowNumber == old(app.windowCount)
    ensures shown.Valid() && |shown.panes| == Min(Max(initial, 0), MaxWidgets)
  {
    initial := disk.ReadLayoutState(urlsFile, app.windowCount);
    shown := new Window(app, disk, Standalone(urlsFile), initial);
  }

  /** Two panes added with the button as connected both save under the key
      "False": the second one's URL replaces the first one's, and neither
      is read back by a pane created by position at the next start. */
  lemma ButtonPanesShareKey(s: PaneState, w: int, a: string, b: string, k: int)
    ensures GetUrl(WithUrl(WithUrl(s, w, PyBool(false), a), w, PyBool(false), b), w, PyBool(false)) == Some(b)
    ensures GetUrl(WithUrl(s, w, PyBool(false), a), w, PyInt(k)) == GetUrl(s, w, PyInt(k))
  {
    UrlRoundTrip(WithUrl(s, w, PyBool(false), a), w, PyBool(false), b, w, PyBool(false));
    UrlRoundTrip(s, w, PyBool(false), a, w, PyInt(k));
  }

  /** With the panes indexed by position, two different panes of a window
      save under different keys, so neither overwrites the other. */
  lemma PositionKeysIsolate(s: PaneState, w: int, j: nat, k: nat, a: string, b: string)
    requires j != k
    ensures GetUrl(WithUrl(WithUrl(s, w, PyInt(j), a), w, PyInt(k), b), w, PyInt(j)) == Some(a)
  {
    UrlRoundTrip(s, w, PyInt(j), a, w, PyInt(j));
    UrlRoundTrip(WithUrl(s, w, PyInt(j), a), w, PyInt(k), b, w, PyInt(j));
  }
}
