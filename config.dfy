/** The configuration record (`multiviewer_config.json`): its built-in
    defaults in each program, the fallback rule on a missing or unparsable
    file, the admin tool's path recommendations, and the admin tool's path
    validator. The host platform is the string `platform.system()` returns. */
module Config {
  import opened Wrappers
  import opened Text

  /** A configuration as the source holds it: a JSON object of strings. */
  type ConfigMap = map<string, string>

  const UrlsFileKey := "urls_file"
  const VlcLibKey := "vlc_lib_path"
  const VlcCoreKey := "vlc_core_path"

  const WindowsUrlsFile := "C:/Users/Alex/Desktop/Multi/urls.json"
  const WindowsVlcLib := "C:/Program Files/VideoLAN/VLC/libvlc.dll"
  const WindowsVlcCore := "C:/Program Files/VideoLAN/VLC/libvlccore.dll"
  const MacUrlsFile := "/Users/alex-mac/Desktop/Multi/urls.json"
  /** The combined program's macOS library default has no `lib/` directory. */
  const CombinedMacVlcLib := "/Applications/VLC.app/Contents/MacOS/libvlc.dylib"
  const AdminMacVlcLib := "/Applications/VLC.app/Contents/MacOS/lib/libvlc.dylib"
  const MacVlcCore := "/Applications/VLC.app/Contents/MacOS/lib/libvlccore.dylib"

  function Triple(urlsFile: string, lib: string, core: string): ConfigMap {
    map[UrlsFileKey := urlsFile, VlcLibKey := lib, VlcCoreKey := core]
  }

  /** `get_default_paths()` of the combined program. */
  function CombinedDefaultPaths(os: string): (r: ConfigMap)
    ensures r.Keys == {UrlsFileKey, VlcLibKey, VlcCoreKey}
    ensures os == "Windows" <==> r == Triple(WindowsUrlsFile, WindowsVlcLib, WindowsVlcCore)
    ensures os != "Windows" <==> r == Triple(MacUrlsFile, CombinedMacVlcLib, MacVlcCore)
  {
    if os == "Windows" then Triple(WindowsUrlsFile, WindowsVlcLib, WindowsVlcCore)
    else Triple(MacUrlsFile, CombinedMacVlcLib, MacVlcCore)
  }

  /** `get_default_paths()` of the admin tool. */
  function AdminDefaultPaths(os: string): (r: ConfigMap)
    ensures r.Keys == {UrlsFileKey, VlcLibKey, VlcCoreKey}
    ensures os == "Windows" <==> r == Triple(WindowsUrlsFile, WindowsVlcLib, WindowsVlcCore)
    ensures os != "Windows" <==> r == Triple(MacUrlsFile, AdminMacVlcLib, MacVlcCore)
  {
    if os == "Windows" then Triple(WindowsUrlsFile, WindowsVlcLib, WindowsVlcCore)
    else Triple(MacUrlsFile, AdminMacVlcLib, MacVlcCore)
  }

  /** The standalone viewer's fallback record: two keys, no core path. */
  const StandaloneDefaultConfig: ConfigMap :=
    map[UrlsFileKey := MacUrlsFile, VlcLibKey := CombinedMacVlcLib]

  /** What every `load_config` returns: the parsed file, or the defaults
      when the file is missing or unparsable (`None`). */
  function LoadedOrDefault(file: Option<ConfigMap>, defaults: ConfigMap): (cfg: ConfigMap)
    ensures file.None? ==> cfg == defaults
    ensures file.Some? ==> cfg == file.value
  {
    file.GetOr(defaults)
  }

  /** The two programs' defaults agree on Windows; on every other platform
      they agree on the state file and the core library and disagree on the
      library; the standalone record lacks the core key altogether. */
  lemma DefaultsCompared(os: string)
    ensures os == "Windows" ==> CombinedDefaultPaths(os) == AdminDefaultPaths(os)
    ensures os != "Windows" ==>
      && CombinedDefaultPaths(os)[UrlsFileKey] == AdminDefaultPaths(os)[UrlsFileKey]
      && CombinedDefaultPaths(os)[VlcCoreKey] == AdminDefaultPaths(os)[VlcCoreKey]
      && CombinedDefaultPaths(os)[VlcLibKey] != AdminDefaultPaths(os)[VlcLibKey]
    ensures StandaloneDefaultConfig.Keys == {UrlsFileKey, VlcLibKey}
    ensures StandaloneDefaultConfig == CombinedDefaultPaths("Darwin") - {VlcCoreKey}
  {
    assert |CombinedMacVlcLib| != |AdminMacVlcLib|;
  }

  // ---------------------------------------------------------------------
  // The admin tool's recommendations (`get_*_recommendation`). Each source
  // literal "Recomendación: <path>" is written here as the prefix followed by
  // the same path constant the defaults use.

  const RecommendationPrefix := "Recomendación: "
  /** The word the prompts for other platforms start with. */
  const PromptLead := "Ingrese "

  function VlcLibRecommendation(os: string): (r: string)
    ensures os == "Windows" || os == "Darwin" ==> r == RecommendationPrefix + AdminDefaultPaths(os)[VlcLibKey]
    ensures os != "Windows" && os != "Darwin" ==> !StartsWith(r, RecommendationPrefix)
  {
    if os == "Windows" then RecommendationPrefix + WindowsVlcLib
    else if os == "Darwin" then RecommendationPrefix + AdminMacVlcLib
    else
      var prompt := PromptLead + "la ruta de libvlc según su sistema operativo.";
      assert prompt[0] != RecommendationPrefix[0];
      prompt
  }

  function VlcCoreRecommendation(os: string): (r: string)
    ensures os == "Windows" || os == "Darwin" ==> r == RecommendationPrefix + AdminDefaultPaths(os)[VlcCoreKey]
    ensures os != "Windows" && os != "Darwin" ==> !StartsWith(r, RecommendationPrefix)
  {
    if os == "Windows" then RecommendationPrefix + WindowsVlcCore
    else if os == "Darwin" then RecommendationPrefix + MacVlcCore
    else
      var prompt := PromptLead + "la ruta de libvlccore según su sistema operativo.";
      assert prompt[0] != RecommendationPrefix[0];
      prompt
  }

  function UrlsRecommendation(os: string): (r: string)
    ensures os == "Windows" || os == "Darwin" ==> r == RecommendationPrefix + AdminDefaultPaths(os)[UrlsFileKey]
    ensures os != "Windows" && os != "Darwin" ==> !StartsWith(r, RecommendationPrefix)
  {
    if os == "Windows" then RecommendationPrefix + WindowsUrlsFile
    else if os == "Darwin" then RecommendationPrefix + MacUrlsFile
    else
      var prompt := PromptLead + "la ruta del archivo JSON donde almacenar las URLs.";
      assert prompt[0] != RecommendationPrefix[0];
      prompt
  }

  lemma StartsWithConcat(p: string, x: string)
    ensures StartsWith(p + x, p)
  {
    assert (p + x)[..|p|] == p;
  }

  /** Each recommendation has exactly three cases: on Windows and on macOS
      it recommends the admin tool's default path for that platform, and
      every other platform gets one fixed prompt.
      The macOS library path recommended is not the combined program's
      macOS default. */
  lemma RecommendationsFollowAdminDefaults(os: string, other: string)
    ensures os == "Windows" || os == "Darwin" ==>
      && VlcLibRecommendation(os) == RecommendationPrefix + AdminDefaultPaths(os)[VlcLibKey]
      && VlcCoreRecommendation(os) == RecommendationPrefix + AdminDefaultPaths(os)[VlcCoreKey]
      && UrlsRecommendation(os) == RecommendationPrefix + AdminDefaultPaths(os)[UrlsFileKey]
    ensures os != "Windows" && os != "Darwin" && other != "Windows" && other != "Darwin" ==>
      && VlcLibRecommendation(os) == VlcLibRecommendation(other)
      && VlcCoreRecommendation(os) == VlcCoreRecommendation(other)
      && UrlsRecommendation(os) == UrlsRecommendation(other)
    ensures VlcLibRecommendation("Darwin") != RecommendationPrefix + CombinedDefaultPaths("Darwin")[VlcLibKey]
  {
    assert |VlcLibRecommendation("Darwin")| != |RecommendationPrefix + CombinedMacVlcLib|;
  }

  // ---------------------------------------------------------------------
  // The admin tool's validator (`is_valid_vlc_lib`, `is_valid_vlc_core` and
  // the rule that combines them). `existing` is the set of paths
  // `os.path.exists` accepts.

  const LibMarker := "libvlc"
  const CoreMarker := "libvlccore"

  predicate IsValidVlcLib(path: string, existing: set<string>, os: string)
    ensures IsValidVlcLib(path, existing, os) ==> path in existing
  {
    path in existing && Contains(Basename(path, Separators(os)), LibMarker)
  }

  predicate IsValidVlcCore(path: string, existing: set<string>, os: string)
    ensures IsValidVlcCore(path, existing, os) ==> path in existing
  {
    path in existing && Contains(Basename(path, Separators(os)), CoreMarker)
  }

  /** The check that gates `save_config` in the admin tool: the library must
      be valid, and the core too, but only on Windows. */
  predicate PathsValid(lib: string, core: string, existing: set<string>, os: string)
    ensures PathsValid(lib, core, existing, os) ==> lib in existing
    ensures os == "Windows" ==> (PathsValid(lib, core, existing, os) ==> core in existing)
    ensures os != "Windows" ==> (PathsValid(lib, core, existing, os) <==> IsValidVlcLib(lib, existing, os))
  {
    IsValidVlcLib(lib, existing, os) && (IsValidVlcCore(core, existing, os) || os != "Windows")
  }

  /** A path valid as a core library is valid as a library, because
      "libvlc" is a prefix of "libvlccore". */
  lemma CoreValidIsLibValid(path: string, existing: set<string>, os: string)
    ensures IsValidVlcCore(path, existing, os) ==> IsValidVlcLib(path, existing, os)
  {
    if IsValidVlcCore(path, existing, os) {
      assert CoreMarker[..|LibMarker|] == LibMarker;
      ContainsPrefix(Basename(path, Separators(os)), CoreMarker, LibMarker);
    }
  }

  /** A path that does not exist is never valid, whatever its name; off
      Windows the core path plays no part; on Windows a single existing core
      library passed as both paths passes. */
  lemma ValidatorCases(lib: string, core: string, core': string, existing: set<string>, os: string)
    ensures lib !in existing ==> !PathsValid(lib, core, existing, os)
    ensures core !in existing && os == "Windows" ==> !PathsValid(lib, core, existing, os)
    ensures os != "Windows" ==> (PathsValid(lib, core, existing, os) <==> PathsValid(lib, core', existing, os))
    ensures IsValidVlcCore(core, existing, os) ==> PathsValid(core, core, existing, os)
  {
    CoreValidIsLibValid(core, existing, os);
  }

  lemma NameRuleOfJoin(dir: string, name: string, marker: string, os: string)
    requires |dir| > 0 && dir[|dir| - 1] == '/'
    requires forall k :: 0 <= k < |name| ==> name[k] !in Separators(os)
    requires StartsWith(name, marker)
    ensures Contains(Basename(dir + name, Separators(os)), marker)
  {
    BasenameOfJoin(dir, name, Separators(os));
  }

  lemma WindowsLibName()
    ensures Contains(Basename(WindowsVlcLib, Separators("Windows")), LibMarker)
  {
    assert WindowsVlcLib == "C:/Program Files/VideoLAN/VLC/" + "libvlc.dll";
    StartsWithConcat(LibMarker, ".dll");
    NameRuleOfJoin("C:/Program Files/VideoLAN/VLC/", "libvlc.dll", LibMarker, "Windows");
  }

  lemma WindowsCoreName()
    ensures Contains(Basename(WindowsVlcCore, Separators("Windows")), CoreMarker)
  {
    assert WindowsVlcCore == "C:/Program Files/VideoLAN/VLC/" + "libvlccore.dll";
    StartsWithConcat(CoreMarker, ".dll");
    NameRuleOfJoin("C:/Program Files/VideoLAN/VLC/", "libvlccore.dll", CoreMarker, "Windows");
  }

  lemma MacLibName(os: string)
    requires os != "Windows"
    ensures Contains(Basename(AdminMacVlcLib, Separators(os)), LibMarker)
  {
    assert AdminMacVlcLib == "/Applications/VLC.app/Contents/MacOS/lib/" + "libvlc.dylib";
    StartsWithConcat(LibMarker, ".dylib");
    NameRuleOfJoin("/Applications/VLC.app/Contents/MacOS/lib/", "libvlc.dylib", LibMarker, os);
  }

  /** The admin defaults have the right file names, so whether they pass the
      validator depends on their existence alone. */
  lemma AdminDefaultsPassNameRule(os: string, existing: set<string>)
    ensures var d := AdminDefaultPaths(os);
      PathsValid(d[VlcLibKey], d[VlcCoreKey], existing, os) <==>
      d[VlcLibKey] in existing && (d[VlcCoreKey] in existing || os != "Windows")
  {
    if os == "Windows" {
      WindowsLibName();
      WindowsCoreName();
    } else {
      MacLibName(os);
    }
  }
}
