/** The persisted settings of the main process: the defaults, the merge of a
    loaded settings file over them, what `saveSettings` writes, and the table of
    selectable global shortcuts with its label lookup. */
module Settings {
  import opened Wrappers

  datatype AppSettings = AppSettings(
    language: string,
    shortcut: string,
    autoSave: bool,
    saveDirectory: string,
    showMagnifier: bool)

  /** The parsed settings file: each key either present with a value of its
      declared type, or absent. */
  datatype StoredSettings = StoredSettings(
    language: Option<string>,
    shortcut: Option<string>,
    autoSave: Option<bool>,
    saveDirectory: Option<string>,
    showMagnifier: Option<bool>)

  /** `path.join(dir, name)` for a single plain name. */
  function JoinPath(dir: string, name: string): (r: string)
    requires name != []
    ensures |r| >= |dir| + |name|
    ensures dir == [] ==> r == name
    ensures dir != [] ==> r[..|dir|] == dir && r[|r| - |name|..] == name
  {
    if dir == [] then name
    else if dir[|dir| - 1] == '/' then dir + name
    else dir + "/" + name
  }

  /** `defaultSettings`, for the home directory `home` (`process.env.HOME || ''`). */
  function Defaults(home: string): (r: AppSettings)
    ensures r.language == "eng+tur" && r.shortcut == "CommandOrControl+Shift+O"
    ensures !r.autoSave && r.showMagnifier
    ensures r.saveDirectory == JoinPath(home, "OCR-Sonuclari")
  {
    AppSettings("eng+tur", "CommandOrControl+Shift+O", false, JoinPath(home, "OCR-Sonuclari"), true)
  }

  /** `{ ...defaults, ...loaded }`: a key present in the file wins, an absent key
      keeps its default. */
  function Merge(defaults: AppSettings, loaded: StoredSettings): (r: AppSettings)
    ensures loaded.language.Some? ==> r.language == loaded.language.value
    ensures loaded.language.None? ==> r.language == defaults.language
    ensures loaded.shortcut.Some? ==> r.shortcut == loaded.shortcut.value
    ensures loaded.shortcut.None? ==> r.shortcut == defaults.shortcut
    ensures loaded.autoSave.Some? ==> r.autoSave == loaded.autoSave.value
    ensures loaded.autoSave.None? ==> r.autoSave == defaults.autoSave
    ensures loaded.saveDirectory.Some? ==> r.saveDirectory == loaded.saveDirectory.value
    ensures loaded.saveDirectory.None? ==> r.saveDirectory == defaults.saveDirectory
    ensures loaded.showMagnifier.Some? ==> r.showMagnifier == loaded.showMagnifier.value
    ensures loaded.showMagnifier.None? ==> r.showMagnifier == defaults.showMagnifier
  {
    AppSettings(
      loaded.language.GetOr(defaults.language),
      loaded.shortcut.GetOr(defaults.shortcut),
      loaded.autoSave.GetOr(defaults.autoSave),
      loaded.saveDirectory.GetOr(defaults.saveDirectory),
      loaded.showMagnifier.GetOr(defaults.showMagnifier))
  }

  /** `loadSettings()`: `file` is the parsed settings file, or `None` when it is
      missing or cannot be read or parsed; then the defaults apply. */
  function LoadSettings(home: string, file: Option<StoredSettings>): (r: AppSettings)
    ensures file.None? ==> r == Defaults(home)
    ensures file.Some? ==> r == Merge(Defaults(home), file.value)
    ensures file.Some? && file.value == StoredSettings(None, None, None, None, None) ==> r == Defaults(home)
  {
    match file
    case None => Defaults(home)
    case Some(loaded) => Merge(Defaults(home), loaded)
  }

  /** The object `saveSettings()` serialises: every key present. */
  function Stored(s: AppSettings): (r: StoredSettings)
    ensures r.language.Some? && r.shortcut.Some? && r.autoSave.Some?
    ensures r.saveDirectory.Some? && r.showMagnifier.Some?
  {
    StoredSettings(Some(s.language), Some(s.shortcut), Some(s.autoSave), Some(s.saveDirectory), Some(s.showMagnifier))
  }

  /** What `saveSettings()` records from the current state; it always writes
      `showMagnifier: true`. */
  function SavedSettings(language: string, shortcut: string, autoSave: bool, saveDirectory: string): (r: AppSettings)
    ensures r.showMagnifier
    ensures r.language == language && r.shortcut == shortcut
    ensures r.autoSave == autoSave && r.saveDirectory == saveDirectory
  {
    AppSettings(language, shortcut, autoSave, saveDirectory, true)
  }

  /** Saving and loading again restores exactly what was saved, whatever the defaults. */
  lemma SaveLoadRoundTrip(home: string, s: AppSettings)
    ensures LoadSettings(home, Some(Stored(s))) == s
  {
  }

  /** Merging the same file twice changes nothing more. */
  lemma MergeIdempotent(defaults: AppSettings, loaded: StoredSettings)
    ensures Merge(Merge(defaults, loaded), loaded) == Merge(defaults, loaded)
  {
  }

  /** A selectable shortcut: `caption` is the source's `label` field. */
  datatype ShortcutOption = ShortcutOption(caption: string, accelerator: string)

  /** `shortcutOptions`. */
  const ShortcutOptions: seq<ShortcutOption> := [
    ShortcutOption("Ctrl+Shift+O", "CommandOrControl+Shift+O"),
    ShortcutOption("Ctrl+Shift+S", "CommandOrControl+Shift+S"),
    ShortcutOption("Ctrl+Shift+C", "CommandOrControl+Shift+C"),
    ShortcutOption("Ctrl+Alt+O", "CommandOrControl+Alt+O"),
    ShortcutOption("Ctrl+Alt+S", "CommandOrControl+Alt+S"),
    ShortcutOption("Print Screen", "PrintScreen"),
    ShortcutOption("Shift+Print Screen", "Shift+PrintScreen")
  ]

  /** `options.find(s => s.accelerator === accelerator)`, as an index. */
  function FindAccelerator(options: seq<ShortcutOption>, accelerator: string): (r: Option<nat>)
    ensures r.Some? ==> r.value < |options| && options[r.value].accelerator == accelerator
    ensures r.Some? ==> forall j :: 0 <= j < r.value ==> options[j].accelerator != accelerator
    ensures r.None? ==> forall j :: 0 <= j < |options| ==> options[j].accelerator != accelerator
  {
    if options == [] then None
    else if options[0].accelerator == accelerator then Some(0)
    else match FindAccelerator(options[1..], accelerator)
      case None => None
      case Some(k) => Some(k + 1)
  }

  /** `options.find(...)?.caption || fallback`: the label of the first option with
      this accelerator, unless there is none or it is empty. */
  function LabelFor(options: seq<ShortcutOption>, accelerator: string, fallback: string): (r: string)
    ensures (forall j :: 0 <= j < |options| ==> options[j].accelerator != accelerator) ==> r == fallback
    ensures forall i :: 0 <= i < |options| && options[i].accelerator == accelerator
              && (forall j :: 0 <= j < i ==> options[j].accelerator != accelerator)
              ==> r == (if options[i].caption != [] then options[i].caption else fallback)
  {
    match FindAccelerator(options, accelerator)
    case None => fallback
    case Some(i) => if options[i].caption != [] then options[i].caption else fallback
  }

  lemma ShortcutAcceleratorsDistinct()
    ensures forall i, j :: 0 <= i < j < |ShortcutOptions| ==>
      ShortcutOptions[i].accelerator != ShortcutOptions[j].accelerator
  {
    var a := ShortcutOptions;
    assert a[0].accelerator[|a[0].accelerator| - 1] == 'O';
    assert a[1].accelerator[|a[1].accelerator| - 1] == 'S';
    assert a[2].accelerator[|a[2].accelerator| - 1] == 'C';
    assert a[3].accelerator[17] == 'A' && a[0].accelerator[17] == 'S';
    assert a[4].accelerator[17] == 'A' && a[4].accelerator[|a[4].accelerator| - 1] == 'S';
    assert a[5].accelerator[0] == 'P' && a[6].accelerator[0] == 'S' && a[0].accelerator[0] == 'C';
  }

  /** Every selectable shortcut is shown by its own label. */
  lemma KnownShortcutLabels(fallback: string)
    ensures forall i :: 0 <= i < |ShortcutOptions| ==>
      LabelFor(ShortcutOptions, ShortcutOptions[i].accelerator, fallback) == ShortcutOptions[i].caption
  {
    ShortcutAcceleratorsDistinct();
  }
}
