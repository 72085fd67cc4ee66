/** The pane-state file as a value: a table from `window_<n>` to the record
    `{num_widgets, urls: {str(i): url}, names: {str(i): name}}`, the guarded
    lookups the panes and windows perform on it, and the read-modify-write
    updates of one nested key. */
module PaneStore {
  import opened Wrappers
  import opened Text

  /** One window's record. Every field is optional, as in the JSON file: a
      pane that only ever had its name edited has no `urls` map, a window
      whose layout was never saved has no `num_widgets`. */
  datatype WindowEntry = WindowEntry(
    numWidgets: Option<int>,
    urls: Option<map<string, string>>,
    names: Option<map<string, string>>)

  const EmptyEntry := WindowEntry(None, None, None)

  /** The parsed file: window key to window record. */
  type PaneState = map<string, WindowEntry>

  /** The pane count `load_layout_state` falls back to. */
  const DefaultLayout := 8

  /** A pane's `index` attribute as a Python value. The initial panes get the
      integers of `range(num_widgets)`; the value can also be a `bool`, which
      is what a button's `clicked(checked)` signal passes in. */
  datatype PyIndex = PyInt(i: int) | PyBool(b: bool)

  /** `str(index)`, the key inside `urls` and `names`. */
  function IndexKey(x: PyIndex): (k: string)
    ensures |k| >= 1
    ensures x.PyInt? <==> k[0] == '-' || IsDigit(k[0])
  {
    match x
    case PyInt(i) => IntToString(i)
    case PyBool(b) => if b then "True" else "False"
  }

  /** `f'window_{n}'` */
  function WindowKey(n: int): (k: string)
  {
    "window_" + IntToString(n)
  }

  lemma IndexKeyInjective(x: PyIndex, y: PyIndex)
    ensures IndexKey(x) == IndexKey(y) ==> x == y
  {
    if x.PyInt? && y.PyInt? {
      IntToStringInjective(x.i, y.i);
    } else if x.PyInt? {
      assert IndexKey(y)[0] == 'T' || IndexKey(y)[0] == 'F';
    } else if y.PyInt? {
      assert IndexKey(x)[0] == 'T' || IndexKey(x)[0] == 'F';
    }
  }

  lemma WindowKeyInjective(m: int, n: int)
    ensures WindowKey(m) == WindowKey(n) ==> m == n
  {
    if WindowKey(m) == WindowKey(n) {
      assert IntToString(m) == WindowKey(m)[7..];
      assert IntToString(n) == WindowKey(n)[7..];
      IntToStringInjective(m, n);
    }
  }

  // ---------------------------------------------------------------------
  // Lookups

  /** `state.get(key, {})`: the window's record, empty when absent. */
  function EntryOf(s: PaneState, key: string): WindowEntry {
    if key in s then s[key] else EmptyEntry
  }

  /** The stored URL of pane `i` of window `w`, if all three levels exist
      (the guard of `load_url`). */
  function GetUrl(s: PaneState, w: int, i: PyIndex): (r: Option<string>)
    ensures r.Some? <==> WindowKey(w) in s && s[WindowKey(w)].urls.Some?
                         && IndexKey(i) in s[WindowKey(w)].urls.value
  {
    var e := EntryOf(s, WindowKey(w));
    if e.urls.Some? && IndexKey(i) in e.urls.value then Some(e.urls.value[IndexKey(i)]) else None
  }

  /** The stored display name of pane `i` of window `w` (the guard of
      `load_name`). */
  function GetName(s: PaneState, w: int, i: PyIndex): (r: Option<string>)
    ensures r.Some? <==> WindowKey(w) in s && s[WindowKey(w)].names.Some?
                         && IndexKey(i) in s[WindowKey(w)].names.value
  {
    var e := EntryOf(s, WindowKey(w));
    if e.names.Some? && IndexKey(i) in e.names.value then Some(e.names.value[IndexKey(i)]) else None
  }

  /** `state.get(window_key, {}).get('num_widgets', 8)` */
  function GetLayout(s: PaneState, w: int): (r: int)
    ensures WindowKey(w) !in s ==> r == DefaultLayout
    ensures WindowKey(w) in s && s[WindowKey(w)].numWidgets.None? ==> r == DefaultLayout
    ensures WindowKey(w) in s && s[WindowKey(w)].numWidgets.Some? ==> r == s[WindowKey(w)].numWidgets.value
  {
    EntryOf(s, WindowKey(w)).numWidgets.GetOr(DefaultLayout)
  }

  // ---------------------------------------------------------------------
  // The three updates, as values: what the file holds after each write.

  /** `save_url`: the window record (created empty if absent) gets a `urls`
      map (created empty if absent) whose entry for the pane is `t`. */
  function WithUrl(s: PaneState, w: int, i: PyIndex, t: string): (r: PaneState)
  {
    var e := EntryOf(s, WindowKey(w));
    s[WindowKey(w) := e.(urls := Some(e.urls.GetOr(map[])[IndexKey(i) := t]))]
  }

  /** `save_name`: as WithUrl, on the `names` map. */
  function WithName(s: PaneState, w: int, i: PyIndex, t: string): (r: PaneState)
  {
    var e := EntryOf(s, WindowKey(w));
    s[WindowKey(w) := e.(names := Some(e.names.GetOr(map[])[IndexKey(i) := t]))]
  }

  /** `save_layout_state`: the window record is replaced by one holding the
      new count and the old `urls` and `names` (or `{}` where absent). */
  function WithLayout(s: PaneState, w: int, n: int): (r: PaneState)
  {
    var e := EntryOf(s, WindowKey(w));
    s[WindowKey(w) := WindowEntry(Some(n), Some(e.urls.GetOr(map[])), Some(e.names.GetOr(map[])))]
  }

  // ---------------------------------------------------------------------
  // The in-place mutations of the loaded dict, step by step as the source
  // performs them, each proved to produce the value above.

  method SetUrlEntry(state: PaneState, w: int, i: PyIndex, t: string) returns (s: PaneState)
    ensures s == WithUrl(state, w, i, t)
  {
    s := state;
    var windowKey := WindowKey(w);
    if windowKey !in s {
      s := s[windowKey := EmptyEntry];
    }
    if s[windowKey].urls.None? {
      s := s[windowKey := s[windowKey].(urls := Some(map[]))];
    }
    s := s[windowKey := s[windowKey].(urls := Some(s[windowKey].urls.value[IndexKey(i) := t]))];
  }

  method SetNameEntry(state: PaneState, w: int, i: PyIndex, t: string) returns (s: PaneState)
    ensures s == WithName(state, w, i, t)
  {
    s := state;
    var windowKey := WindowKey(w);
    if windowKey !in s {
      s := s[windowKey := EmptyEntry];
    }
    if s[windowKey].names.None? {
      s := s[windowKey := s[windowKey].(names := Some(map[]))];
    }
    s := s[windowKey := s[windowKey].(names := Some(s[windowKey].names.value[IndexKey(i) := t]))];
  }

  method SetLayoutEntry(state: PaneState, w: int, n: int) returns (s: PaneState)
    ensures s == WithLayout(state, w, n)
  {
    s := state;
    var windowKey := WindowKey(w);
    var old_ := if windowKey in s then s[windowKey] else EmptyEntry;
    var urls := if old_.urls.Some? then old_.urls.value else map[];
    var names := if old_.names.Some? then old_.names.value else map[];
    s := s[windowKey := WindowEntry(Some(n), Some(urls), Some(names))];
  }

  // ---------------------------------------------------------------------
  // Round trips and isolation

  /** After `save_url` with text `t`, `load_url` of the same pane finds
      `t`; every other pane's URL, every name and every layout are as they
      were, and every other window's record is untouched. */
  lemma UrlRoundTrip(s: PaneState, w: int, i: PyIndex, t: string, w': int, i': PyIndex)
    ensures WithUrl(s, w, i, t).Keys == s.Keys + {WindowKey(w)}
    ensures GetUrl(WithUrl(s, w, i, t), w, i) == Some(t)
    ensures (w', i') != (w, i) ==> GetUrl(WithUrl(s, w, i, t), w', i') == GetUrl(s, w', i')
    ensures GetName(WithUrl(s, w, i, t), w', i') == GetName(s, w', i')
    ensures GetLayout(WithUrl(s, w, i, t), w') == GetLayout(s, w')
    ensures w' != w ==> EntryOf(WithUrl(s, w, i, t), WindowKey(w')) == EntryOf(s, WindowKey(w'))
  {
    WindowKeyInjective(w, w');
    IndexKeyInjective(i, i');
  }

  /** Writing back the URL a pane already has changes nothing. This is what
      happens when `load_url` puts the stored URL in the text field and the
      field's change signal saves it again. */
  lemma UrlRewriteIsIdentity(s: PaneState, w: int, i: PyIndex, t: string)
    requires GetUrl(s, w, i) == Some(t)
    ensures WithUrl(s, w, i, t) == s
  {
    var e := s[WindowKey(w)];
    assert e.urls.Some?;
    assert e.urls.value[IndexKey(i) := t] == e.urls.value;
    assert e.(urls := Some(e.urls.value)) == e;
  }

  /** After `save_name` with text `t`, `load_name` of the same pane finds
      `t`. The write touches exactly `names[str(i)]` of its window: that
      window's `urls` and `num_widgets`, every URL, every other name and all
      other windows are untouched. */
  lemma NameRoundTrip(s: PaneState, w: int, i: PyIndex, t: string, w': int, i': PyIndex)
    ensures WithName(s, w, i, t).Keys == s.Keys + {WindowKey(w)}
    ensures GetName(WithName(s, w, i, t), w, i) == Some(t)
    ensures (w', i') != (w, i) ==> GetName(WithName(s, w, i, t), w', i') == GetName(s, w', i')
    ensures GetUrl(WithName(s, w, i, t), w', i') == GetUrl(s, w', i')
    ensures EntryOf(WithName(s, w, i, t), WindowKey(w)).urls == EntryOf(s, WindowKey(w)).urls
    ensures EntryOf(WithName(s, w, i, t), WindowKey(w)).numWidgets == EntryOf(s, WindowKey(w)).numWidgets
    ensures w' != w ==> EntryOf(WithName(s, w, i, t), WindowKey(w')) == EntryOf(s, WindowKey(w'))
  {
    WindowKeyInjective(w, w');
    IndexKeyInjective(i, i');
  }

  lemma NameRewriteIsIdentity(s: PaneState, w: int, i: PyIndex, t: string)
    requires GetName(s, w, i) == Some(t)
    ensures WithName(s, w, i, t) == s
  {
    var e := s[WindowKey(w)];
    assert e.names.Some?;
    assert e.names.value[IndexKey(i) := t] == e.names.value;
    assert e.(names := Some(e.names.value)) == e;
  }

  /** `save_layout_state` followed by `load_layout_state` gives the saved
      count back. The window's `urls` and `names` are kept as they were (or
      become `{}` where absent), so no URL or name of any pane changes, and
      other windows are untouched. */
  lemma LayoutRoundTrip(s: PaneState, w: int, n: int, w': int, i': PyIndex)
    ensures WithLayout(s, w, n).Keys == s.Keys + {WindowKey(w)}
    ensures GetLayout(WithLayout(s, w, n), w) == n
    ensures EntryOf(WithLayout(s, w, n), WindowKey(w)).urls == Some(EntryOf(s, WindowKey(w)).urls.GetOr(map[]))
    ensures EntryOf(WithLayout(s, w, n), WindowKey(w)).names == Some(EntryOf(s, WindowKey(w)).names.GetOr(map[]))
    ensures GetUrl(WithLayout(s, w, n), w', i') == GetUrl(s, w', i')
    ensures GetName(WithLayout(s, w, n), w', i') == GetName(s, w', i')
    ensures w' != w ==> EntryOf(WithLayout(s, w, n), WindowKey(w')) == EntryOf(s, WindowKey(w'))
    ensures w' != w ==> GetLayout(WithLayout(s, w, n), w') == GetLayout(s, w')
  {
    WindowKeyInjective(w, w');
  }

  /** A later layout save of a window overrides an earlier one: saving the
      counts 1, 2, ..., n in turn, as adding panes one by one does, leaves
      what saving n once leaves. */
  lemma LayoutOverwrite(s: PaneState, w: int, a: int, b: int)
    ensures WithLayout(WithLayout(s, w, a), w, b) == WithLayout(s, w, b)
  {
  }
}
