/** The main process's state and the handlers that change it: capture mode,
    the result of a finished selection (history, auto-save record,
    notification), the settings window guard, the save-settings handler and
    shortcut changes, and the tray menu built from the history. */
module MainProcess {
  import opened Wrappers
  import opened Text
  import opened History
  import opened Settings
  import opened Notification

  datatype CaptureMode = Ocr | Qr

  /** `mode === 'qr' ? 'QR' : 'OCR'`. */
  function FilePrefix(mode: CaptureMode): (r: string)
    ensures mode == Qr ==> r == "QR"
    ensures mode == Ocr ==> r == "OCR"
    ensures |r| == if mode == Qr then 2 else 3
  {
    if mode == Qr then "QR" else "OCR"
  }

  /** `iso.replace(/[:.]/g, '-')`, applied to the clock's ISO-8601 rendering. */
  function SanitizeTimestamp(iso: string): (r: string)
    ensures |r| == |iso|
    ensures forall i :: 0 <= i < |r| ==> r[i] != ':' && r[i] != '.'
    ensures forall i :: 0 <= i < |r| && iso[i] != ':' && iso[i] != '.' ==> r[i] == iso[i]
    ensures forall i :: 0 <= i < |r| && (iso[i] == ':' || iso[i] == '.') ==> r[i] == '-'
  {
    ReplaceAny(iso, {':', '.'}, '-')
  }

  /** A sanitised timestamp is left as it is by a second pass. */
  lemma SanitizeTimestampIdempotent(iso: string)
    ensures SanitizeTimestamp(SanitizeTimestamp(iso)) == SanitizeTimestamp(iso)
  {
    var once := SanitizeTimestamp(iso);
    var twice := SanitizeTimestamp(once);
    forall i | 0 <= i < |once| ensures twice[i] == once[i] {
    }
  }

  /** The file name both saved files share, before their extensions. */
  function FileStem(mode: CaptureMode, iso: string): (r: string)
    ensures |r| == |FilePrefix(mode)| + 1 + |iso|
    ensures r[..|FilePrefix(mode)| + 1] == FilePrefix(mode) + "_"
    ensures r[|FilePrefix(mode)| + 1..] == SanitizeTimestamp(iso)
    ensures forall i :: 0 <= i < |r| ==> r[i] != ':' && r[i] != '.'
  {
    FilePrefix(mode) + "_" + SanitizeTimestamp(iso)
  }

  /** The language recorded in the JSON file: `N/A` for a QR code. */
  function RecordedLanguage(mode: CaptureMode, currentLanguage: string): (r: string)
    ensures mode == Qr ==> r == "N/A"
    ensures mode == Ocr ==> r == currentLanguage
  {
    if mode == Ocr then currentLanguage else "N/A"
  }

  /** The metadata object written to the JSON file. */
  datatype SavedRecord = SavedRecord(
    kind: CaptureMode,
    text: string,
    timestamp: string,
    language: string,
    charCount: nat,
    wordCount: nat)

  datatype SaveOutput = SaveOutput(txtPath: string, txtContent: string, jsonPath: string, record: SavedRecord)

  /** `saveToFile(text, mode)`: nothing when auto-save is off; otherwise a text
      file and a JSON file in `directory`. The source reads the clock twice:
      `nameStamp` names the files and `recordStamp` goes into the record. */
  function SaveToFile(autoSave: bool, directory: string, language: string, text: string,
                      mode: CaptureMode, nameStamp: string, recordStamp: string): (r: Option<SaveOutput>)
    ensures r.None? <==> !autoSave
    ensures r.Some? ==>
      && r.value.txtPath == JoinPath(directory, FileStem(mode, nameStamp) + ".txt")
      && r.value.jsonPath == JoinPath(directory, FileStem(mode, nameStamp) + ".json")
      && r.value.txtContent == text
    ensures r.Some? ==>
      && r.value.record.kind == mode && r.value.record.text == text
      && r.value.record.timestamp == recordStamp
      && r.value.record.language == RecordedLanguage(mode, language)
      && r.value.record.charCount == |text|
      && r.value.record.wordCount == RunCount(text)
  {
    if !autoSave then None
    else
      var stem := FileStem(mode, nameStamp);
      WordCountIsRunCount(text);
      Some(SaveOutput(
        JoinPath(directory, stem + ".txt"), text, JoinPath(directory, stem + ".json"),
        SavedRecord(mode, text, recordStamp, RecordedLanguage(mode, language), |text|, WordCount(text))))
  }

  /** The notification body for a copied result: the first 80 characters and
      `...` when it is longer. */
  function ResultExcerpt(text: string): (r: string)
    ensures |text| <= 80 ==> r == text
    ensures |text| > 80 ==> |r| == 83 && r[..80] == text[..80] && r[80..] == "..."
  {
    if |text| > 80 then text[..80] + "..." else text
  }

  datatype MenuAction = CaptureText | CaptureQrCode | CopyHistoryItem(index: nat) | ClearHistory | OpenSettingsWindow | Quit

  datatype MenuEntry = Item(caption: string, action: MenuAction) | Heading(caption: string) | Separator

  function HistoryEntries(items: seq<HistoryItem>): (r: seq<MenuEntry>)
    ensures |r| == |items|
    ensures forall i :: 0 <= i < |r| ==> r[i] == Item(NatToString(i + 1) + ". " + items[i].preview, CopyHistoryItem(i))
  {
    var labels := MenuLabels(items, 1);
    seq(|items|, i requires 0 <= i < |items| => Item(labels[i], CopyHistoryItem(i)))
  }

  /** The head of the tray menu; `shortcutLabel` names the capture shortcut. */
  function MenuHead(shortcutLabel: string): seq<MenuEntry> {
    [ Item("📷 Text Yakala (" + shortcutLabel + ")", CaptureText),
      Item("📱 QR/Barkod Oku (Ctrl+Shift+Q)", CaptureQrCode),
      Separator ]
  }

  const MenuTail: seq<MenuEntry> := [Item("⚙️ Ayarlar", OpenSettingsWindow), Separator, Item("❌ Çıkış", Quit)]

  /** The tray menu `updateTrayMenu()` builds: the history section, with its
      heading and its clear entry, appears only when the history is not empty. */
  function TrayMenu(shortcutLabel: string, items: seq<HistoryItem>): (r: seq<MenuEntry>)
    ensures |r| == if items == [] then 6 else |items| + 10
    ensures r[..3] == MenuHead(shortcutLabel) && r[|r| - 3..] == MenuTail
    ensures items == [] ==> forall k :: 0 <= k < |r| ==> r[k] != Item("🗑️ Geçmişi Temizle", ClearHistory)
    ensures items != [] ==> r[3] == Heading("📜 Son OCR Sonuçları") && r[|items| + 5] == Item("🗑️ Geçmişi Temizle", ClearHistory)
    ensures forall i :: 0 <= i < |items| ==>
      r[4 + i] == Item(NatToString(i + 1) + ". " + items[i].preview, CopyHistoryItem(i))
    ensures forall k :: 0 <= k < |r| && r[k].Item? && r[k].action.CopyHistoryItem? ==> r[k].action.index < |items|
  {
    var history := HistoryEntries(items);
    if items == [] then MenuHead(shortcutLabel) + MenuTail
    else
      MenuHead(shortcutLabel)
      + [Heading("📜 Son OCR Sonuçları")] + history
      + [Separator, Item("🗑️ Geçmişi Temizle", ClearHistory), Separator]
      + MenuTail
  }

  /** The tray's capture entry names the configured shortcut by its label, and
      an unknown accelerator by `Ctrl+Shift+O`. */
  lemma TrayNamesShortcut(currentShortcut: string, items: seq<HistoryItem>)
    ensures (forall j :: 0 <= j < |ShortcutOptions| ==> ShortcutOptions[j].accelerator != currentShortcut) ==>
      TrayMenu(LabelFor(ShortcutOptions, currentShortcut, "Ctrl+Shift+O"), items)[0] == Item("📷 Text Yakala (Ctrl+Shift+O)", CaptureText)
    ensures forall i :: 0 <= i < |ShortcutOptions| && ShortcutOptions[i].accelerator == currentShortcut ==>
      TrayMenu(LabelFor(ShortcutOptions, currentShortcut, "Ctrl+Shift+O"), items)[0]
        == Item("📷 Text Yakala (" + ShortcutOptions[i].caption + ")", CaptureText)
  {
    KnownShortcutLabels("Ctrl+Shift+O");
    var m := TrayMenu(LabelFor(ShortcutOptions, currentShortcut, "Ctrl+Shift+O"), items);
    assert m[0] == m[..3][0];
  }

  /** The settings sent by the settings window with `save-settings`. */
  datatype SettingsForm = SettingsForm(language: string, shortcut: string, autoSave: bool, saveDirectory: string, autoStart: bool)

  /** Bounds of a finished selection, in window pixels. */
  datatype Bounds = Bounds(x: int, y: int, width: int, height: int)

  /** What the external screen grab produced. */
  datatype CaptureResult = Captured | NothingCaptured | CaptureError

  datatype SelectionOutcome =
    | Ignored                   // no window, or no screenshot yet
    | RejectedBounds            // an empty rectangle
    | Copied(text: string, saved: Option<SaveOutput>, note: Note)
    | NotFound(note: Note)
    | Failed(note: Note)        // the recogniser or a file operation raised

  /** The module-level state of the main process. */
  class MainState {
    var currentLanguage: string
    var currentShortcut: string
    var captureMode: CaptureMode
    var autoSaveEnabled: bool
    var saveDirectory: string
    var settingsOpen: bool
    /** `win` is not null. */
    var hasWindow: bool
    /** `lastcapturedImage` is not null. */
    var hasCapturedImage: bool
    /** The autostart `.desktop` file exists. */
    var autostart: bool
    /** The parsed content of the settings file, `None` when there is none. */
    var settingsFile: Option<StoredSettings>
    const history: OcrHistory

    ghost predicate Valid()
      reads this, history
    {
      history.Valid()
    }

    /** Start-up: the settings are loaded over the defaults; the window comes later. */
    constructor (home: string, file: Option<StoredSettings>, autostartFile: bool)
      ensures Valid() && fresh(history) && history.items == []
      ensures currentLanguage == LoadSettings(home, file).language
      ensures currentShortcut == LoadSettings(home, file).shortcut
      ensures autoSaveEnabled == LoadSettings(home, file).autoSave
      ensures saveDirectory == LoadSettings(home, file).saveDirectory
      ensures captureMode == Ocr && !settingsOpen && !hasWindow && !hasCapturedImage
      ensures autostart == autostartFile && settingsFile == file
    {
      var s := LoadSettings(home, file);
      currentLanguage := s.language;
      currentShortcut := s.shortcut;
      captureMode := Ocr;
      autoSaveEnabled := s.autoSave;
      saveDirectory := s.saveDirectory;
      settingsOpen := false;
      hasWindow := false;
      hasCapturedImage := false;
      autostart := autostartFile;
      settingsFile := file;
      history := new OcrHistory();
    }

    /** `createWindow()`. */
    method CreateWindow()
      modifies this
      ensures hasWindow
      ensures currentLanguage == old(currentLanguage) && currentShortcut == old(currentShortcut)
      ensures captureMode == old(captureMode) && autoSaveEnabled == old(autoSaveEnabled)
      ensures saveDirectory == old(saveDirectory) && settingsOpen == old(settingsOpen)
      ensures hasCapturedImage == old(hasCapturedImage) && autostart == old(autostart)
      ensures settingsFile == old(settingsFile)
    {
      hasWindow := true;
    }

    /** `saveSettings()`: the settings file afterwards holds the current state. */
    method SaveSettings()
      modifies this`settingsFile
      ensures settingsFile == Some(Stored(SavedSettings(currentLanguage, currentShortcut, autoSaveEnabled, saveDirectory)))
    {
      settingsFile := Some(Stored(SavedSettings(currentLanguage, currentShortcut, autoSaveEnabled, saveDirectory)));
    }

    /** `startCapture()`: with a window, a successful grab becomes the
        screenshot the overlay is shown over; a failed grab keeps the previous
        one. */
    method StartCapture(grab: CaptureResult) returns (overlayShown: bool, note: Option<Note>)
      modifies this`hasCapturedImage
      ensures overlayShown <==> old(hasWindow) && grab == Captured
      ensures hasCapturedImage == (old(hasCapturedImage) || overlayShown)
      ensures note.Some? <==> hasWindow && grab != Captured
      ensures hasWindow && grab == NothingCaptured ==> note == Some(Note("Ekran Yakalama Başarısız", "Ekran yakalanamadı."))
      ensures hasWindow && grab == CaptureError ==> note == Some(Note("Hata", "Ekran yakalama hatası"))
    {
      overlayShown, note := false, None;
      if !hasWindow {
        return;
      }
      match grab
      case Captured =>
        hasCapturedImage := true;
        overlayShown := true;
      case NothingCaptured =>
        note := Some(Note("Ekran Yakalama Başarısız", "Ekran yakalanamadı."));
      case CaptureError =>
        note := Some(Note("Hata", "Ekran yakalama hatası"));
    }

    /** `startOCRCapture()` and `startQRCapture()`. */
    method StartModeCapture(mode: CaptureMode, grab: CaptureResult) returns (overlayShown: bool, note: Option<Note>)
      modifies this`captureMode, this`hasCapturedImage
      ensures captureMode == mode
      ensures overlayShown <==> hasWindow && grab == Captured
      ensures hasCapturedImage == (old(hasCapturedImage) || overlayShown)
      ensures note.Some? <==> hasWindow && grab != Captured
    {
      captureMode := mode;
      overlayShown, note := StartCapture(grab);
    }

    /** The `selection-complete` handler. `recognized` is the trimmed output of
        the recogniser for the cropped image, or `None` when it raised; `now`,
        `nameStamp` and `recordStamp` are the clock readings. */
    method CompleteSelection(bounds: Bounds, recognized: Option<string>, now: Timestamp,
                             nameStamp: string, recordStamp: string, errorMessage: string)
      returns (outcome: SelectionOutcome)
      requires Valid()
      modifies this`captureMode, history
      ensures Valid()
      ensures !old(hasWindow) || !old(hasCapturedImage) ==> outcome == Ignored
      ensures outcome == Ignored || outcome == RejectedBounds || outcome.Failed? ==>
        captureMode == old(captureMode) && history.items == old(history.items)
      ensures old(hasWindow) && old(hasCapturedImage) && (bounds.width <= 0 || bounds.height <= 0) ==>
        outcome == RejectedBounds
      ensures outcome.Failed? ==> old(captureMode) == Ocr && recognized.None? && outcome.note == Note("Hata", errorMessage)
      ensures outcome.Copied? || outcome.NotFound? ==> captureMode == Ocr
      ensures outcome.NotFound? ==> history.items == old(history.items)
      ensures outcome.NotFound? ==>
        outcome.note.body == (if old(captureMode) == Qr then "QR kod veya barkod bulunamadı." else "Seçilen alanda okunabilir text yok.")
      ensures outcome.Copied? ==>
        && outcome.text != [] && recognized == Some(outcome.text)
        && history.items == Pushed(old(history.items), HistoryItem(outcome.text, now, Preview(outcome.text)))
        && outcome.saved == SaveToFile(autoSaveEnabled, saveDirectory, currentLanguage, outcome.text, old(captureMode), nameStamp, recordStamp)
        && outcome.note.title == (if old(captureMode) == Qr then "📱" else "✓") + " Kopyalandı!" + (if autoSaveEnabled then " (kaydedildi)" else "")
        && outcome.note.body == ResultExcerpt(outcome.text)
      ensures outcome.NotFound? ==> outcome.note.title == "✗ Bulunamadı"
      ensures old(hasWindow) && old(hasCapturedImage) && bounds.width > 0 && bounds.height > 0 ==>
        match recognized
        case Some(t) => if t != [] then outcome.Copied? else outcome.NotFound?
        case None => if old(captureMode) == Qr then outcome.NotFound? else outcome.Failed?
    {
      if !hasWindow || !hasCapturedImage {
        return Ignored;
      }
      if bounds.width <= 0 || bounds.height <= 0 {
        return RejectedBounds;
      }
      var text: string;
      if captureMode == Qr {
        // readQRCode catches the decoder's failure and answers null.
        text := recognized.GetOr("");
      } else {
        if recognized.None? {
          return Failed(Note("Hata", errorMessage));
        }
        text := recognized.value;
      }
      if text != [] {
        history.Add(text, now);
        var saved := SaveToFile(autoSaveEnabled, saveDirectory, currentLanguage, text, captureMode, nameStamp, recordStamp);
        var icon := if captureMode == Qr then "📱" else "✓";
        var saveInfo := if autoSaveEnabled then " (kaydedildi)" else "";
        outcome := Copied(text, saved, Note(icon + " Kopyalandı!" + saveInfo, ResultExcerpt(text)));
      } else {
        var msg := if captureMode == Qr then "QR kod veya barkod bulunamadı." else "Seçilen alanda okunabilir text yok.";
        outcome := NotFound(Note("✗ Bulunamadı", msg));
      }
      captureMode := Ocr;
    }

    /** `openSettings()`: shows the settings window once until it is closed. */
    method OpenSettings() returns (shown: bool)
      modifies this`settingsOpen
      ensures shown <==> hasWindow && !old(settingsOpen)
      ensures settingsOpen == (old(settingsOpen) || hasWindow)
    {
      if !hasWindow || settingsOpen {
        return false;
      }
      settingsOpen := true;
      shown := true;
    }

    /** `closeSettings()`. */
    method CloseSettings()
      modifies this`settingsOpen
      ensures settingsOpen == (old(settingsOpen) && !hasWindow)
    {
      if !hasWindow {
        return;
      }
      settingsOpen := false;
    }

    /** `setAutostart(enabled)`: creates or removes the autostart file. */
    method SetAutostart(enabled: bool) returns (note: Note)
      modifies this`autostart
      ensures autostart == enabled
      ensures note == if enabled then Note("✓ Autostart Açık", "Uygulama sistem başlangıcında çalışacak")
                      else Note("✗ Autostart Kapalı", "Uygulama artık otomatik başlamayacak")
    {
      autostart := enabled;
      if enabled {
        note := Note("✓ Autostart Açık", "Uygulama sistem başlangıcında çalışacak");
      } else {
        note := Note("✗ Autostart Kapalı", "Uygulama artık otomatik başlamayacak");
      }
    }

    /** The `save-settings` handler. `reRegistered` is the accelerator the
        capture hotkey was moved to, if it changed; the registration's own
        success is not consulted. */
    method HandleSaveSettings(form: SettingsForm) returns (reRegistered: Option<string>, notes: seq<Note>)
      modifies this`currentLanguage, this`currentShortcut, this`autoSaveEnabled, this`saveDirectory,
               this`autostart, this`settingsFile
      ensures currentLanguage == form.language && currentShortcut == form.shortcut
      ensures autoSaveEnabled == form.autoSave && saveDirectory == form.saveDirectory
      ensures autostart == form.autoStart
      ensures reRegistered == if form.shortcut != old(currentShortcut) then Some(form.shortcut) else None
      ensures settingsFile == Some(Stored(SavedSettings(form.language, form.shortcut, form.autoSave, form.saveDirectory)))
      ensures forall home :: LoadSettings(home, settingsFile) == SavedSettings(form.language, form.shortcut, form.autoSave, form.saveDirectory)
      ensures |notes| == if form.autoStart != old(autostart) then 2 else 1
      ensures |notes| == 2 ==>
        notes[0] == if form.autoStart then Note("✓ Autostart Açık", "Uygulama sistem başlangıcında çalışacak")
                    else Note("✗ Autostart Kapalı", "Uygulama artık otomatik başlamayacak")
      ensures notes[|notes| - 1] == Note("✓ Ayarlar Kaydedildi", "Tüm değişiklikler uygulandı")
    {
      if form.language != currentLanguage {
        currentLanguage := form.language;
      }
      reRegistered := None;
      if form.shortcut != currentShortcut {
        reRegistered := Some(form.shortcut);
        currentShortcut := form.shortcut;
      }
      autoSaveEnabled := form.autoSave;
      saveDirectory := form.saveDirectory;
      notes := [];
      if form.autoStart != autostart {
        var n := SetAutostart(form.autoStart);
        notes := [n];
      }
      SaveSettings();
      forall home ensures LoadSettings(home, settingsFile) == SavedSettings(form.language, form.shortcut, form.autoSave, form.saveDirectory) {
        SaveLoadRoundTrip(home, SavedSettings(form.language, form.shortcut, form.autoSave, form.saveDirectory));
      }
      notes := notes + [Note("✓ Ayarlar Kaydedildi", "Tüm değişiklikler uygulandı")];
    }

    /** `changeShortcut(newShortcut)`; `registered` is whether the desktop
        accepted the new hotkey. On refusal the old one stays in force. */
    method ChangeShortcut(newShortcut: string, registered: bool) returns (note: Note)
      modifies this`currentShortcut, this`settingsFile
      ensures currentShortcut == if registered then newShortcut else old(currentShortcut)
      ensures registered ==> settingsFile == Some(Stored(SavedSettings(currentLanguage, newShortcut, autoSaveEnabled, saveDirectory)))
      ensures !registered ==> settingsFile == old(settingsFile)
      ensures registered ==> note == Note("⌨️ Kısayol Değişti", LabelFor(ShortcutOptions, newShortcut, newShortcut))
      ensures !registered ==> note == Note("❌ Hata", "Bu kısayol kullanılamıyor")
    {
      if registered {
        currentShortcut := newShortcut;
        SaveSettings();
        note := Note("⌨️ Kısayol Değişti", LabelFor(ShortcutOptions, newShortcut, newShortcut));
      } else {
        note := Note("❌ Hata", "Bu kısayol kullanılamıyor");
      }
    }
  }
}
