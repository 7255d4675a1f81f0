/** Command-line handling (drunkdeer/args.go) and the top-level dispatch of
    `run` (drunkdeer/main.go): the command word, the flags that act and
    exit at once, the keyboard index, and the file names of imported
    profiles. */
module Args {
  import opened Strings
  import opened CliUtils

  /** The parsed command line. */
  datatype Args = Args(
    command: string,
    cmdValue: string,
    importSource: string,
    debug: bool,
    index: int,
    profiles: bool,
    reset: bool,
    load: string,
    save: string,
    version: bool,
    list: bool)

  /** The actions `handleArgs` performs and then ends the process. */
  datatype ExitingAction = ShowVersion | ListDevices | ShowProfiles | ImportProfile(source: string) | SaveProfile(target: string)

  /** What `handleArgs` leads to: an action that exits, or the rest of the
      program with the updated arguments and the keyboard index. */
  datatype Outcome = Exits(action: ExitingAction) | Proceeds(args: Args, keyboardIndex: int)

  /** The first switch of `handleArgs`: the words "load", "save" and "import"
      copy the command value into their option, and "reset" sets the reset
      flag; any other word leaves the arguments as they are. */
  function ApplyCommandWord(a: Args): (r: Args)
    ensures a.command == "load" ==> r == a.(load := a.cmdValue)
    ensures a.command == "save" ==> r == a.(save := a.cmdValue)
    ensures a.command == "import" ==> r == a.(importSource := a.cmdValue)
    ensures a.command == "reset" ==> r == a.(reset := true)
    ensures a.command !in {"load", "save", "import", "reset"} ==> r == a
  {
    match a.command
    case "load" => a.(load := a.cmdValue)
    case "save" => a.(save := a.cmdValue)
    case "reset" => a.(reset := true)
    case "import" => a.(importSource := a.cmdValue)
    case _ => a
  }

  /** Applying the command word a second time changes nothing. */
  lemma ApplyCommandWordIdempotent(a: Args)
    ensures ApplyCommandWord(ApplyCommandWord(a)) == ApplyCommandWord(a)
  {
  }

  /** The keyboard index: the `--index` option, with negative values raised to 0. */
  function KeyboardIndex(index: int): (r: int)
    ensures r >= 0
    ensures index >= 0 ==> r == index
    ensures index < 0 ==> r == 0
  {
    if index < 0 then 0 else index
  }

  /** `handleArgs`. The words "version", "list" and "profiles" run their
      action, which exits; then the flags are tried in the order version,
      list, profiles, import, save, each of which also exits; otherwise the
      program goes on with the clamped keyboard index. */
  function HandleArgs(a: Args): (r: Outcome)
    ensures a.command == "version" ==> r == Exits(ShowVersion)
    ensures a.command == "list" ==> r == Exits(ListDevices)
    ensures a.command == "profiles" ==> r == Exits(ShowProfiles)
    ensures r.Proceeds? ==>
      && r.args == ApplyCommandWord(a) && r.keyboardIndex == KeyboardIndex(a.index)
      && !r.args.version && !r.args.list && !r.args.profiles && r.args.importSource == "" && r.args.save == ""
    ensures r.Exits? && r.action.ImportProfile? ==> r.action.source == ApplyCommandWord(a).importSource != ""
    ensures r.Exits? && r.action.SaveProfile? ==> r.action.target == ApplyCommandWord(a).save != ""
    // Past the command word the flags decide, first set first.
    ensures a.command !in {"version", "list", "profiles"} ==>
      var b := ApplyCommandWord(a);
      && (b.version ==> r == Exits(ShowVersion))
      && (!b.version && b.list ==> r == Exits(ListDevices))
      && (!b.version && !b.list && b.profiles ==> r == Exits(ShowProfiles))
      && (!b.version && !b.list && !b.profiles && b.importSource != "" ==> r == Exits(ImportProfile(b.importSource)))
      && (!b.version && !b.list && !b.profiles && b.importSource == "" && b.save != "" ==> r == Exits(SaveProfile(b.save)))
      && (!b.version && !b.list && !b.profiles && b.importSource == "" && b.save == "" ==>
            r == Proceeds(b, KeyboardIndex(a.index)))
  {
    if a.command == "version" then Exits(ShowVersion)
    else if a.command == "list" then Exits(ListDevices)
    else if a.command == "profiles" then Exits(ShowProfiles)
    else
      var b := ApplyCommandWord(a);
      if b.version then Exits(ShowVersion)
      else if b.list then Exits(ListDevices)
      else if b.profiles then Exits(ShowProfiles)
      else if b.importSource != "" then Exits(ImportProfile(b.importSource))
      else if b.save != "" then Exits(SaveProfile(b.save))
      else Proceeds(b, KeyboardIndex(a.index))
  }

  /** The program goes on past `handleArgs` exactly when neither the command
      word nor any flag asks for an action that exits. */
  lemma HandleArgsProceedsIff(a: Args)
    ensures HandleArgs(a).Proceeds? <==>
      && a.command !in {"version", "list", "profiles"}
      && var b := ApplyCommandWord(a);
         !b.version && !b.list && !b.profiles && b.importSource == "" && b.save == ""
  {
  }

  /** The actions of `run` once a device is open. */
  datatype RunAction = ResetDevice | LoadProfile(path: string) | ShowHelp

  /** `run`: reset wins over load; with neither, the help text. */
  function Run(a: Args): (r: RunAction)
    ensures a.reset <==> r == ResetDevice
    ensures !a.reset && a.load != "" <==> r == LoadProfile(a.load)
    ensures !a.reset && a.load == "" <==> r == ShowHelp
  {
    if a.reset then ResetDevice
    else if a.load != "" then LoadProfile(a.load)
    else ShowHelp
  }

  /** `drunkdeer load <name>` with no other option loads `<name>`. */
  lemma LoadCommandLoads(a: Args)
    requires a.command == "load" && a.cmdValue != ""
    requires !a.version && !a.list && !a.profiles && a.importSource == "" && a.save == "" && !a.reset
    ensures HandleArgs(a).Proceeds? && Run(HandleArgs(a).args) == LoadProfile(a.cmdValue)
  {
  }

  /** `drunkdeer reset` resets, whatever profile is also named. */
  lemma ResetCommandResets(a: Args)
    requires a.command == "reset"
    requires !a.version && !a.list && !a.profiles && a.importSource == "" && a.save == ""
    ensures HandleArgs(a).Proceeds? && Run(HandleArgs(a).args) == ResetDevice
  {
  }

  // ---------------------------------------------------------------------------
  // Profile file names

  /** `ensureJSONExtension`: appends ".json" unless the name already ends in it. */
  function EnsureJsonExtension(fileName: string): (r: string)
    ensures HasSuffix(r, JsonSuffix)
    ensures HasSuffix(fileName, JsonSuffix) ==> r == fileName
    ensures !HasSuffix(fileName, JsonSuffix) ==> r == fileName + JsonSuffix
  {
    AppendedHasSuffix(fileName, JsonSuffix);
    if !HasSuffix(fileName, JsonSuffix) then fileName + JsonSuffix else fileName
  }

  lemma EnsureJsonExtensionIdempotent(fileName: string)
    ensures EnsureJsonExtension(EnsureJsonExtension(fileName)) == EnsureJsonExtension(fileName)
  {
  }

  /** The name `showImportSuccess` tells the user to load: the stored file
      name without its ".json". */
  function ProfileName(fileName: string): (r: string)
    ensures HasSuffix(fileName, JsonSuffix) ==> r + JsonSuffix == fileName
    ensures !HasSuffix(fileName, JsonSuffix) ==> r == fileName
  {
    TrimSuffix(fileName, JsonSuffix)
  }

  /** Stripping the suffix from the stored name and adding it back gives the
      stored name; a base name without ".json" comes back unchanged. */
  lemma ProfileNameRoundTrip(base: string)
    ensures ProfileName(EnsureJsonExtension(base)) + JsonSuffix == EnsureJsonExtension(base)
    ensures !HasSuffix(base, JsonSuffix) ==> ProfileName(EnsureJsonExtension(base)) == base
  {
  }

  /** The suggested `drunkdeer load <name>` finds the imported file: `importConfig`
      stores the profile at `Join(profileDir, EnsureJsonExtension(base))`,
      and resolving the shown name under the same directory gives that path,
      as long as the shown name does not itself end in ".json". */
  lemma ImportedProfileResolves(profileDir: string, base: string)
    requires !IsAbs(base)
    requires !HasSuffix(ProfileName(EnsureJsonExtension(base)), JsonSuffix)
    ensures ResolveProfilePath(profileDir, ProfileName(EnsureJsonExtension(base)))
         == Join(profileDir, EnsureJsonExtension(base))
  {
    var stored := EnsureJsonExtension(base);
    var shown := ProfileName(stored);
    ProfileNameRoundTrip(base);
    assert !IsAbs(shown) by {
      if |shown| > 0 {
        assert shown[0] == base[0] by {
          if HasSuffix(base, JsonSuffix) {
            assert base[0] == (shown + JsonSuffix)[0];
          }
        }
      }
    }
    assert Join(profileDir, shown) + JsonSuffix == Join(profileDir, shown + JsonSuffix);
  }

  /** The exception: a base name ending in ".json.json" is stored as is, but
      the shown name "x.json" resolves to "x.json", not to the stored file. */
  lemma DoubleSuffixResolvesElsewhere(profileDir: string)
    ensures EnsureJsonExtension("x.json.json") == "x.json.json"
    ensures ProfileName("x.json.json") == "x.json"
    ensures ResolveProfilePath(profileDir, "x.json") == Join(profileDir, "x.json")
    ensures Join(profileDir, "x.json") != Join(profileDir, EnsureJsonExtension("x.json.json"))
  {
    assert HasSuffix("x.json.json", JsonSuffix);
    assert HasSuffix("x.json", JsonSuffix);
    assert "x.json.json"[..|"x.json.json"| - 5] == "x.json";
    assert |Join(profileDir, "x.json")| != |Join(profileDir, "x.json.json")|;
  }
}
