/** The two files the programs read and write, and every read or write of
    them: `load_config`/`save_config` of the three programs, `load_urls`, and
    the read-modify-write bodies of `save_url`, `save_name`,
    `save_layout_state` and the read of `load_layout_state`.

    The two viewers differ only here. The combined program re-reads the
    configuration before every access to the state file (writing its defaults
    when the configuration file is missing) and creates an empty state file
    when the state file is missing; the standalone viewer resolved the
    state-file path once at start-up and never writes on a read. */
module Storage {
  import opened Wrappers
  import opened Config
  import opened PaneStore

  /** Which viewer runs. `Combined(os)` is combined_multiviewer.py on the
      platform `os`; `Standalone(urlsFile)` is multiviewer.py with the path
      its module-level `URLS_FILE` was set to. */
  datatype Edition = Combined(os: string) | Standalone(urlsFile: string)

  /** The configuration file after a viewer has loaded it: the combined
      program persists its defaults when the file is missing or unparsable. */
  function PersistedConfig(ed: Edition, file: Option<ConfigMap>): (r: Option<ConfigMap>)
    ensures ed.Standalone? || file.Some? ==> r == file
    ensures ed.Combined? ==> r == Some(LoadedOrDefault(file, CombinedDefaultPaths(ed.os)))
    ensures UrlsPathOf(ed, r) == UrlsPathOf(ed, file)
  {
    if ed.Combined? && file.None? then Some(CombinedDefaultPaths(ed.os)) else file
  }

  /** The state-file path a viewer uses with this configuration file; `None`
      where the combined program's `config["urls_file"]` raises KeyError. */
  function UrlsPathOf(ed: Edition, file: Option<ConfigMap>): (r: Option<string>)
    ensures ed.Standalone? ==> r.Some?
    ensures ed.Combined? && file.None? ==> r == Some(CombinedDefaultPaths(ed.os)[UrlsFileKey])
    ensures ed.Combined? && file.Some? ==> (r.Some? <==> UrlsFileKey in file.value)
  {
    match ed
    case Standalone(p) => Some(p)
    case Combined(os) =>
      var cfg := LoadedOrDefault(file, CombinedDefaultPaths(os));
      if UrlsFileKey in cfg then Some(cfg[UrlsFileKey]) else None
  }

  /** Loading the configuration changes neither the state-file path nor what
      the next load returns: the defaults written on a first load are read
      back on the second. A missing configuration never raises. */
  lemma PersistIsStable(ed: Edition, file: Option<ConfigMap>)
    ensures UrlsPathOf(ed, PersistedConfig(ed, file)) == UrlsPathOf(ed, file)
    ensures PersistedConfig(ed, PersistedConfig(ed, file)) == PersistedConfig(ed, file)
    ensures ed.Combined? ==> LoadedOrDefault(PersistedConfig(ed, file), CombinedDefaultPaths(ed.os))
                               == LoadedOrDefault(file, CombinedDefaultPaths(ed.os))
    ensures file.None? ==> UrlsPathOf(ed, file).Some?
  {
  }

  /** What `json.load` of the state file at `path` gives, `{}` where the
      source's `except` branch substitutes the empty table. */
  function StateIn(files: map<string, PaneState>, path: string): (s: PaneState)
    ensures path !in files ==> s == map[]
    ensures path in files ==> s == files[path]
  {
    if path in files then files[path] else map[]
  }

  /** The state files after a `load_urls` that found its state file at
      `path`: the combined program has written `{}` there if it was missing;
      the standalone viewer has written nothing. */
  function FilesAfterLoad(ed: Edition, files: map<string, PaneState>, path: string): (r: map<string, PaneState>)
    ensures StateIn(r, path) == StateIn(files, path)
    ensures forall q :: q != path ==> (q in r <==> q in files)
    ensures forall q :: q in files ==> q in r && r[q] == files[q]
  {
    if ed.Combined? then files[path := StateIn(files, path)] else files
  }

  /** A second load leaves the files as the first one did. */
  lemma FilesAfterLoadIdempotent(ed: Edition, files: map<string, PaneState>, path: string)
    ensures FilesAfterLoad(ed, FilesAfterLoad(ed, files, path), path) == FilesAfterLoad(ed, files, path)
  {
  }

  /** A write to `path` after a load hides whatever the load wrote there. */
  lemma WriteAfterLoad(ed: Edition, files: map<string, PaneState>, path: string, s: PaneState)
    ensures FilesAfterLoad(ed, files, path)[path := s] == files[path := s]
  {
  }

  class Disk {
    /** `multiviewer_config.json`: None when missing or unparsable. */
    var config: Option<ConfigMap>
    /** The state files by path; a path that is missing or unparsable is
        absent. */
    var stateFiles: map<string, PaneState>

    constructor (config: Option<ConfigMap>, stateFiles: map<string, PaneState>)
      ensures this.config == config && this.stateFiles == stateFiles
    {
      this.config := config;
      this.stateFiles := stateFiles;
    }

    function StateAt(path: string): PaneState
      reads this
    {
      StateIn(stateFiles, path)
    }

    /** The viewer can find its state file (no KeyError). */
    predicate Resolvable(ed: Edition)
      reads this
    {
      UrlsPathOf(ed, config).Some?
    }

    function UrlsPath(ed: Edition): string
      reads this
      requires Resolvable(ed)
    {
      UrlsPathOf(ed, config).value
    }

    /** `save_config`: overwrites the configuration file wholesale. */
    method SaveConfig(cfg: ConfigMap)
      modifies this
      ensures config == Some(cfg) && stateFiles == old(stateFiles)
    {
      config := Some(cfg);
    }

    /** combined `load_config`: the parsed file, or the defaults, which are
        then written so that the next load returns the same record. */
    method LoadConfigPersisting(os: string) returns (cfg: ConfigMap)
      modifies this
      ensures cfg == LoadedOrDefault(old(config), CombinedDefaultPaths(os))
      ensures config == Some(cfg) && stateFiles == old(stateFiles)
    {
      if config.Some? {
        cfg := config.value;
      } else {
        cfg := CombinedDefaultPaths(os);
        SaveConfig(cfg);
      }
    }

    /** admin `load_config`: the parsed file, or the admin defaults, which
        are not written. */
    method LoadConfigAdmin(os: string) returns (cfg: ConfigMap)
      ensures config.Some? ==> cfg == config.value
      ensures config.None? ==> cfg == AdminDefaultPaths(os) && cfg.Keys == {UrlsFileKey, VlcLibKey, VlcCoreKey}
    {
      if config.Some? {
        cfg := config.value;
      } else {
        cfg := AdminDefaultPaths(os);
      }
    }

    /** standalone `load_config`: the parsed file, or a two-key record
        without `vlc_core_path`, not written. */
    method LoadConfigStandalone() returns (cfg: ConfigMap)
      ensures config.Some? ==> cfg == config.value
      ensures config.None? ==> cfg == StandaloneDefaultConfig && VlcCoreKey !in cfg
    {
      if config.Some? {
        cfg := config.value;
      } else {
        cfg := StandaloneDefaultConfig;
      }
    }

    /** multiviewer.py at import time: `URLS_FILE = config["urls_file"]` and
        `DEFAULT_VLC_PATH = config["vlc_lib_path"]` after its `load_config`;
        `None` where either subscript raises and the program does not start. */
    method StandaloneStartup() returns (ed: Option<Edition>)
      ensures var cfg := LoadedOrDefault(config, StandaloneDefaultConfig);
              && (ed.Some? <==> UrlsFileKey in cfg && VlcLibKey in cfg)
              && (ed.Some? ==> ed.value == Standalone(cfg[UrlsFileKey]))
      ensures config.None? ==> ed == Some(Standalone(MacUrlsFile))
    {
      var cfg := LoadConfigStandalone();
      if UrlsFileKey in cfg && VlcLibKey in cfg {
        ed := Some(Standalone(cfg[UrlsFileKey]));
      } else {
        ed := None;
      }
    }

    /** standalone `load_urls`: the parsed file or `{}`; nothing is written. */
    method ReadUrls(path: string) returns (state: PaneState)
      ensures path in stateFiles ==> state == stateFiles[path]
      ensures path !in stateFiles ==> state == map[]
    {
      if path in stateFiles {
        state := stateFiles[path];
      } else {
        state := map[];
      }
    }

    /** combined `load_urls`: loads the configuration (persisting defaults),
        then the state file; a missing or unparsable state file is replaced
        by `{}`, which is also returned. `ok` is false where
        `config["urls_file"]` raises. */
    method LoadUrlsCreating(os: string) returns (ok: bool, state: PaneState)
      modifies this
      ensures config == PersistedConfig(Combined(os), old(config))
      ensures ok == UrlsPathOf(Combined(os), old(config)).Some?
      ensures ok ==> var p := UrlsPathOf(Combined(os), old(config)).value;
                     state == old(StateAt(p)) && stateFiles == old(stateFiles)[p := state]
      ensures !ok ==> stateFiles == old(stateFiles)
    {
      var cfg := LoadConfigPersisting(os);
      if UrlsFileKey !in cfg {
        ok, state := false, map[];
        return;
      }
      var path := cfg[UrlsFileKey];
      if path in stateFiles {
        state := stateFiles[path];
      } else {
        state := map[];
        stateFiles := stateFiles[path := state];
      }
      ok := true;
    }

    /** `load_urls` of either viewer. */
    method LoadUrls(ed: Edition) returns (ok: bool, state: PaneState)
      modifies this
      ensures config == PersistedConfig(ed, old(config))
      ensures ok == old(Resolvable(ed))
      ensures ok ==> var p := UrlsPathOf(ed, old(config)).value;
                     state == old(StateAt(p)) && stateFiles == FilesAfterLoad(ed, old(stateFiles), p)
      ensures !ok ==> stateFiles == old(stateFiles)
    {
      match ed
      case Standalone(path) =>
        state := ReadUrls(path);
        ok := true;
      case Combined(os) =>
        ok, state := LoadUrlsCreating(os);
    }

    /** Where a save writes the state: the combined program loads the
        configuration once more and takes its `urls_file`; the standalone
        viewer writes to `URLS_FILE`. */
    method WritePath(ed: Edition) returns (path: string)
      requires Resolvable(ed)
      modifies this
      ensures path == old(UrlsPath(ed))
      ensures config == PersistedConfig(ed, old(config)) && stateFiles == old(stateFiles)
    {
      match ed
      case Standalone(p) =>
        path := p;
      case Combined(os) =>
        var cfg := LoadConfigPersisting(os);
        path := cfg[UrlsFileKey];
    }

    /** Body of `save_url`: read the table, set
        `state[window_w]['urls'][str(i)]`, write the whole table back. */
    method SaveUrl(ed: Edition, w: int, i: PyIndex, t: string) returns (ok: bool)
      modifies this
      ensures config == PersistedConfig(ed, old(config))
      ensures ok == old(Resolvable(ed))
      ensures ok ==> var p := UrlsPathOf(ed, old(config)).value;
                     stateFiles == old(stateFiles)[p := WithUrl(old(StateAt(p)), w, i, t)]
      ensures !ok ==> stateFiles == old(stateFiles)
    {
      var state;
      ok, state := LoadUrls(ed);
      if !ok {
        return;
      }
      PersistIsStable(ed, old(config));
      state := SetUrlEntry(state, w, i, t);
      var path := WritePath(ed);
      stateFiles := stateFiles[path := state];
    }

    /** Body of `save_name`: as SaveUrl, on `names`. */
    method SaveName(ed: Edition, w: int, i: PyIndex, t: string) returns (ok: bool)
      modifies this
      ensures config == PersistedConfig(ed, old(config))
      ensures ok == old(Resolvable(ed))
      ensures ok ==> var p := UrlsPathOf(ed, old(config)).value;
                     stateFiles == old(stateFiles)[p := WithName(old(StateAt(p)), w, i, t)]
      ensures !ok ==> stateFiles == old(stateFiles)
    {
      var state;
      ok, state := LoadUrls(ed);
      if !ok {
        return;
      }
      PersistIsStable(ed, old(config));
      state := SetNameEntry(state, w, i, t);
      var path := WritePath(ed);
      stateFiles := stateFiles[path := state];
    }

    /** Body of `save_layout_state` with `n == len(self.video_widgets)`. */
    method SaveLayoutState(ed: Edition, w: int, n: int) returns (ok: bool)
      modifies this
      ensures config == PersistedConfig(ed, old(config))
      ensures ok == old(Resolvable(ed))
      ensures ok ==> var p := UrlsPathOf(ed, old(config)).value;
                     stateFiles == old(stateFiles)[p := WithLayout(old(StateAt(p)), w, n)]
      ensures !ok ==> stateFiles == old(stateFiles)
    {
      var state;
      ok, state := LoadUrls(ed);
      if !ok {
        return;
      }
      PersistIsStable(ed, old(config));
      state := SetLayoutEntry(state, w, n);
      var path := WritePath(ed);
      stateFiles := stateFiles[path := state];
    }

    /** standalone `load_layout_state`: the stored count, or 8 when the
        file, the window or the field is missing. Nothing is written. */
    method ReadLayoutState(path: string, w: int) returns (n: int)
      ensures path !in stateFiles ==> n == DefaultLayout
      ensures path in stateFiles ==> n == GetLayout(stateFiles[path], w)
    {
      if path in stateFiles {
        var state := stateFiles[path];
        var windowKey := WindowKey(w);
        var entry := if windowKey in state then state[windowKey] else EmptyEntry;
        n := if entry.numWidgets.Some? then entry.numWidgets.value else DefaultLayout;
      } else {
        n := DefaultLayout;
      }
    }

    /** `load_layout_state` of either viewer; the combined one loads the
        configuration first (persisting defaults) and does not create a
        missing state file. */
    method LoadLayoutState(ed: Edition, w: int) returns (ok: bool, n: int)
      modifies this
      ensures config == PersistedConfig(ed, old(config)) && stateFiles == old(stateFiles)
      ensures ok == old(Resolvable(ed))
      ensures ok ==> n == GetLayout(old(StateAt(UrlsPathOf(ed, config).value)), w)
    {
      PersistIsStable(ed, config);
      match ed
      case Standalone(path) =>
        n := ReadLayoutState(path, w);
        ok := true;
      case Combined(os) =>
        var cfg := LoadConfigPersisting(os);
        if UrlsFileKey !in cfg {
          ok, n := false, DefaultLayout;
          return;
        }
        n := ReadLayoutState(cfg[UrlsFileKey], w);
        ok := true;
    }
  }
}
