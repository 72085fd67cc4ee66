/** The administration window: the three path fields loaded from the
    configuration, the macOS auto-detection, the file pickers, the validator
    that gates the save, and the hand-over to the viewer. Two programs have
    one: the admin tool, which validates before it saves and launches the
    viewer as a separate process, and the combined program, whose window
    saves unconditionally and opens the viewer in the same process. */
module Admin {
  import opened Wrappers
  import opened Config
  import opened PaneStore
  import opened Storage
  import opened Windows

  datatype AdminTool = AdminProgram | CombinedAdmin

  /** `config.get(key)` */
  function Lookup(cfg: ConfigMap, key: string): Option<string> {
    if key in cfg then Some(cfg[key]) else None
  }

  /** The record `save_configuration` builds: the three path keys set to the
      three fields' texts, every other key kept. */
  function SavedRecord(cfg: ConfigMap, lib: string, core: string, urls: string): (r: ConfigMap)
    ensures r.Keys == cfg.Keys + {VlcLibKey, VlcCoreKey, UrlsFileKey}
    ensures r[VlcLibKey] == lib && r[VlcCoreKey] == core && r[UrlsFileKey] == urls
    ensures forall k :: k in cfg && k != VlcLibKey && k != VlcCoreKey && k != UrlsFileKey ==> r[k] == cfg[k]
  {
    cfg[VlcLibKey := lib][VlcCoreKey := core][UrlsFileKey := urls]
  }

  /** Saving what was just saved gives the same record. */
  lemma SavedRecordIdempotent(cfg: ConfigMap, lib: string, core: string, urls: string)
    ensures SavedRecord(SavedRecord(cfg, lib, core, urls), lib, core, urls) == SavedRecord(cfg, lib, core, urls)
  {
  }

  /** A saved record points a viewer of either program at the typed state
      file, whatever the record held before. */
  lemma SavedRecordIsResolvable(cfg: ConfigMap, lib: string, core: string, urls: string, os: string)
    ensures UrlsPathOf(Combined(os), Some(SavedRecord(cfg, lib, core, urls))) == Some(urls)
    ensures LoadedOrDefault(Some(SavedRecord(cfg, lib, core, urls)), StandaloneDefaultConfig)[VlcLibKey] == lib
  {
  }

  /** On macOS a detected library passes the validator whatever the core
      field holds, so the admin tool's fields are valid as soon as VLC is
      installed at the standard location. */
  lemma DetectedLibraryIsValid(core: string, existing: set<string>)
    requires AdminMacVlcLib in existing
    ensures PathsValid(AdminMacVlcLib, core, existing, "Darwin")
  {
    MacLibName("Darwin");
  }

  class AdminWindow {
    const disk: Disk
    const tool: AdminTool
    const osType: string
    var config: ConfigMap
    var vlcLibPath: Option<string>
    var vlcCorePath: Option<string>
    var urlsFile: Option<string>
    var libInput: string
    var coreInput: string
    var urlsInput: string
    var isOpen: bool

    /** `AdminWindow()`: load the configuration with the program's own
        `load_config`, fill the fields from it (an absent key shows as an
        empty field), and, in the admin tool on macOS, auto-detect the VLC
        libraries. `existing` is the set of paths that exist. */
    constructor (disk: Disk, tool: AdminTool, os: string, existing: set<string>)
      modifies disk
      ensures this.disk == disk && this.tool == tool && osType == os && isOpen
      ensures tool == AdminProgram ==>
        config == LoadedOrDefault(old(disk.config), AdminDefaultPaths(os)) && disk.config == old(disk.config)
      ensures tool == CombinedAdmin ==>
        config == LoadedOrDefault(old(disk.config), CombinedDefaultPaths(os)) && disk.config == Some(config)
      ensures disk.stateFiles == old(disk.stateFiles)
      ensures var detect := tool == AdminProgram && os == "Darwin";
        && vlcLibPath == (if detect && AdminMacVlcLib in existing then Some(AdminMacVlcLib) else Lookup(config, VlcLibKey))
        && vlcCorePath == (if detect && MacVlcCore in existing then Some(MacVlcCore) else Lookup(config, VlcCoreKey))
      ensures urlsFile == Lookup(config, UrlsFileKey)
      ensures libInput == vlcLibPath.GetOr("") && coreInput == vlcCorePath.GetOr("") && urlsInput == urlsFile.GetOr("")
    {
      var cfg: ConfigMap;
      if tool == AdminProgram {
        cfg := disk.LoadConfigAdmin(os);
      } else {
        cfg := disk.LoadConfigPersisting(os);
      }
      this.disk := disk;
      this.tool := tool;
      osType := os;
      config := cfg;
      vlcLibPath := Lookup(cfg, VlcLibKey);
      vlcCorePath := Lookup(cfg, VlcCoreKey);
      urlsFile := Lookup(cfg, UrlsFileKey);
      libInput := Lookup(cfg, VlcLibKey).GetOr("");
      coreInput := Lookup(cfg, VlcCoreKey).GetOr("");
      urlsInput := Lookup(cfg, UrlsFileKey).GetOr("");
      isOpen := true;
      new;
      if tool == AdminProgram && os == "Darwin" {
        AutoDetectVlcPaths(existing);
      }
    }

    /** `auto_detect_vlc_paths`: each library found at the standard macOS
        location replaces the loaded path and its field's text. */
    method AutoDetectVlcPaths(existing: set<string>)
      modifies this`vlcLibPath, this`libInput, this`vlcCorePath, this`coreInput
      ensures AdminMacVlcLib in existing ==> vlcLibPath == Some(AdminMacVlcLib) && libInput == AdminMacVlcLib
      ensures AdminMacVlcLib !in existing ==> vlcLibPath == old(vlcLibPath) && libInput == old(libInput)
      ensures MacVlcCore in existing ==> vlcCorePath == Some(MacVlcCore) && coreInput == MacVlcCore
      ensures MacVlcCore !in existing ==> vlcCorePath == old(vlcCorePath) && coreInput == old(coreInput)
    {
      if AdminMacVlcLib in existing {
        vlcLibPath := Some(AdminMacVlcLib);
        libInput := AdminMacVlcLib;
      }
      if MacVlcCore in existing {
        vlcCorePath := Some(MacVlcCore);
        coreInput := MacVlcCore;
      }
    }

    /** The three recommendation labels for this window's platform. */
    function Recommendations(): (r: (string, string, string))
      reads this
      ensures osType == "Windows" || osType == "Darwin" ==>
        r == (RecommendationPrefix + AdminDefaultPaths(osType)[VlcLibKey],
              RecommendationPrefix + AdminDefaultPaths(osType)[VlcCoreKey],
              RecommendationPrefix + AdminDefaultPaths(osType)[UrlsFileKey])
    {
      RecommendationsFollowAdminDefaults(osType, osType);
      (VlcLibRecommendation(osType), VlcCoreRecommendation(osType), UrlsRecommendation(osType))
    }

    /** `select_vlc_lib_path`: the dialog's answer, "" when cancelled,
        replaces the field's text unless empty. */
    method SelectVlcLibPath(filePath: string)
      modifies this`libInput
      ensures libInput == if filePath == "" then old(libInput) else filePath
    {
      if filePath != "" {
        libInput := filePath;
      }
    }

    method SelectVlcCorePath(filePath: string)
      modifies this`coreInput
      ensures coreInput == if filePath == "" then old(coreInput) else filePath
    {
      if filePath != "" {
        coreInput := filePath;
      }
    }

    /** `select_urls_file`: as the library pickers, and a chosen file that
        does not exist is created holding `{}`. */
    method SelectUrlsFile(filePath: string, existing: set<string>)
      modifies this`urlsInput, disk
      ensures urlsInput == if filePath == "" then old(urlsInput) else filePath
      ensures disk.config == old(disk.config)
      ensures disk.stateFiles ==
        if filePath != "" && filePath !in existing then old(disk.stateFiles)[filePath := map[]]
        else old(disk.stateFiles)
    {
      if filePath != "" {
        urlsInput := filePath;
        if filePath !in existing {
          disk.stateFiles := disk.stateFiles[filePath := map[]];
        }
      }
    }

    /** `validate_paths`: the verdict the message box reports. Only the
        admin tool has this button. */
    method ValidatePaths(existing: set<string>) returns (valid: bool)
      requires tool == AdminProgram
      ensures valid == PathsValid(libInput, coreInput, existing, osType)
      ensures valid ==> libInput in existing && (osType == "Windows" ==> coreInput in existing)
    {
      valid := IsValidVlcLib(libInput, existing, osType)
               && (IsValidVlcCore(coreInput, existing, osType) || osType != "Windows");
    }

    /** `save_configuration`: the record takes the three fields' texts in
        every case; the admin tool writes it only when the paths pass the
        validator, the combined program always. */
    method SaveConfiguration(existing: set<string>) returns (saved: bool)
      modifies this`config, disk
      ensures config == SavedRecord(old(config), libInput, coreInput, urlsInput)
      ensures tool == AdminProgram ==> saved == PathsValid(libInput, coreInput, existing, osType)
      ensures tool == CombinedAdmin ==> saved
      ensures saved ==> disk.config == Some(config)
      ensures !saved ==> disk.config == old(disk.config)
      ensures disk.stateFiles == old(disk.stateFiles)
    {
      config := config[VlcLibKey := libInput];
      config := config[VlcCoreKey := coreInput];
      config := config[UrlsFileKey := urlsInput];
      var libPath := config[VlcLibKey];
      var corePath := config[VlcCoreKey];
      if tool == CombinedAdmin {
        disk.SaveConfig(config);
        saved := true;
      } else if IsValidVlcLib(libPath, existing, osType)
                && (IsValidVlcCore(corePath, existing, osType) || osType != "Windows") {
        disk.SaveConfig(config);
        saved := true;
      } else {
        saved := false;
      }
    }

    /** The admin tool's `open_multiviewer`: save first, then start the
        viewer as a process. `launcherFound` says whether the interpreter
        could be started; `seen` is the configuration file as the new process
        finds it. The launch is attempted whether or not the save happened,
        and the window closes only when it succeeds. */
    method OpenMultiviewer(existing: set<string>, launcherFound: bool)
      returns (saved: bool, launched: bool, seen: Option<ConfigMap>)
      requires tool == AdminProgram
      modifies this`config, this`isOpen, disk
      ensures config == SavedRecord(old(config), libInput, coreInput, urlsInput)
      ensures saved == PathsValid(libInput, coreInput, existing, osType)
      ensures launched == launcherFound
      ensures saved ==> seen == Some(config)
      ensures !saved ==> seen == old(disk.config)
      ensures seen == disk.config && disk.stateFiles == old(disk.stateFiles)
      ensures isOpen == (old(isOpen) && !launched)
    {
      saved := SaveConfiguration(existing);
      seen := disk.config;
      launched := launcherFound;
      if launched {
        isOpen := false;
      }
    }

    /** The combined program's `open_multiviewer`: save, then open a viewer
        window with the default eight panes in the same process, which reads
        its panes from the state file the urls field names. */
    method OpenMultiviewerInProcess(app: App, existing: set<string>) returns (w: Window)
      requires tool == CombinedAdmin
      modifies this`config, this`isOpen, disk, app
      ensures config == SavedRecord(old(config), libInput, coreInput, urlsInput)
      ensures disk.config == PersistedConfig(Combined(osType), Some(config))
      ensures UrlsPathOf(Combined(osType), disk.config) == Some(urlsInput)
      ensures w.Valid() && w.disk == disk && w.edition == Combined(osType) && w.app == app
      ensures |w.panes| == DefaultPanes && AllLoadedFrom(w.panes, 0, old(disk.StateAt(urlsInput)))
      ensures disk.stateFiles == old(disk.stateFiles)[urlsInput := WithLayout(old(disk.StateAt(urlsInput)), w.windowNumber, DefaultPanes)]
      ensures app.windowCount == old(app.windowCount) + 1 && app.openWindows == old(app.openWindows)
      ensures !isOpen
    {
      var saved := SaveConfiguration(existing);
      SavedRecordIsResolvable(old(config), libInput, coreInput, urlsInput, osType);
      w := new Window(app, disk, Combined(osType), DefaultPanes);
      isOpen := false;
    }
  }
}
