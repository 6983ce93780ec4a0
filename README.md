# Screen OCR: a Dafny model of its main-process helpers, capture overlay and result editor

Screen OCR is an Electron tray application for Linux. A global hotkey grabs the
screen; the renderer shows the frozen screenshot under a dimmed overlay where the
user drags a rectangle; the main process crops the image, has it recognised as
text (or decoded as a QR code), copies the result, keeps it in a short history in
the tray menu, optionally saves it to a text file and a JSON metadata file, and
reports through a desktop notification.

This project models the deterministic core of that flow:

- `text.dfy` (`Text`): JavaScript's `\s` whitespace class, global character
  replacement, `substring(0, n)`, and the word count
  `text.split(/\s+/).filter(w => w).length` shared by the main process and the
  editor. The count is proved equal to an independent definition (the number of
  maximal non-whitespace runs), zero exactly for blank text, and additive across a
  whitespace separator.
- `notification.dfy` (`Notification`): the notification body clean-up and the source's
  `notify-send` command line, with the corrected clean-up and command beside them (see "## Findings").
- `history.dfy` (`History`): the preview of a history entry, the bounded
  newest-first history (`OcrHistory`, at most 10 entries, updated in place), and
  the numbered tray-menu labels.
- `settings.dfy` (`Settings`): default settings, the merge of a loaded settings
  file over them, what saving writes (with a save/load round trip), and the
  shortcut table with its "first matching accelerator, else fallback" lookup.
- `main_process.dfy` (`MainProcess`): file names and the JSON record of the
  auto-save, the tray menu, and `MainState`, the main process's module-level
  variables with the handlers that change them (capture mode, a finished
  selection, the settings-window guard, the save-settings handler, shortcut
  changes, autostart).
- `overlay.dfy` (`Overlay`): the overlay's drag-selection state machine
  (`OverlayWindow`), the normalised rectangle, the "larger than 5 by 5" rule, and
  the four dimming bands, proved to tile the screen together with the selection.
- `editor.dfy` (`Editor`): the result editor, whose character and word counts
  always describe the edited text, its key dispatch, and the heading per mode.
- `wrappers.dfy` (`Wrappers`): the `Option` type for the source's `null`s.

Clock readings, the recognised text, the outcome of a screen grab and of a hotkey
registration, and the parsed settings file are parameters of the operations that
use them.

## Model

| member | source | states |
|---|---|---|
| Text.ReplaceAny | electron/main.ts:123 | same length; each character of the target class becomes the substitute, every other character is kept |
| Text.Prefix | electron/main.ts:8 | `substring(0, n)`: a prefix of the input of length min(length, n) |
| Text.Split | electron/main.ts:138 | `split(/\s+/)`: at least one piece, no piece contains whitespace, the first piece is empty exactly when the text is empty or starts with whitespace |
| Text.NonEmpty | electron/main.ts:138 | `filter(w => w)`: only non-empty pieces, each taken from the input |
| Text.Words | electron/main.ts:138 | every word is non-empty and free of whitespace |
| Text.WordCountIsRunCount | electron/main.ts:138 | the source's word count equals the number of maximal runs of non-whitespace characters |
| Text.WordCountZeroIff | electron/main.ts:138 | the word count is 0 exactly when the text is empty or all whitespace |
| Text.WordCountJoin | electron/main.ts:138 | joining two texts with a whitespace character adds their word counts |
| Text.NatToString | electron/main.ts:288 | the decimal rendering of a menu number: non-empty, digits only, no leading zero |
| Text.NatToStringRoundTrip | electron/main.ts:288 | reading the rendered digits back gives the number |
| Notification.SanitizeBodyAsWritten | electron/main.ts:8 | the source's body clean-up: length min(length, 200), no `"` and no newline, `"` becomes `'` and a newline a space, everything else kept |
| Notification.AsWrittenKeepsPlainBody | electron/main.ts:8 | a body of at most 200 characters without `"` or newline passes unchanged |
| Notification.AsWrittenPassesSubstitution | electron/main.ts:8-10 | the body `$(reboot)` reaches the shell command unchanged, with a character the shell still expands inside double quotes |
| Notification.SanitizeBody | electron/main.ts:8-10 | corrected clean-up: length min(length, 200), no newline, nothing the shell interprets inside double quotes, other characters kept |
| Notification.SanitizeBodyAgrees | electron/main.ts:8 | on bodies without `$`, backquote or backslash the corrected clean-up equals the source's |
| Notification.NotifyCommand | electron/main.ts:7-10 | the command the source runs is `notify-send "` ... `" -t 3000`, the title in the first quotes and the source's cleaned body in the second, a segment of min(length, 200) characters holding no `"` and no newline |
| Notification.NotifyCommandRunsSubstitution | electron/main.ts:8-10 | for the body `$(reboot)` the source's command carries `$(reboot)` unchanged inside the body's double quotes |
| Notification.SafeNotifyCommand | electron/main.ts:7-10 | corrected command: the same `notify-send "` ... `" -t 3000` shape with the title, and the quoted body segment is the corrected clean-up and shell-inert |
| History.Preview | electron/main.ts:272 | the first 30 characters with newlines as spaces, `...` exactly when longer than 30; length at most 33, no newline, equal to a short newline-free text |
| History.Pushed | electron/main.ts:274-277 | the new item is first, earlier items follow shifted by one, only the oldest is dropped and only when the length would exceed 10 |
| History.PushAllKeepsMostRecent | electron/main.ts:268-277 | after any sequence of additions the history is the 10 most recent items, newest first, followed by older entries while room remains |
| History.MenuLabels | electron/main.ts:287-288 | one label per entry, `<index+1>. <preview>` in history order |
| History.OcrHistory.constructor | electron/main.ts:84-85 | the history starts empty |
| History.OcrHistory.Add | electron/main.ts:268-279 | `addToHistory`: the new list is `Pushed` of the old one with the stamped item; length stays at most 10 and every preview matches its text |
| History.OcrHistory.Clear | electron/main.ts:308 | clearing leaves the history empty |
| Settings.JoinPath | electron/main.ts:36 | the joined path starts with the directory and ends with the name; an empty directory gives the name |
| Settings.Defaults | electron/main.ts:32-38 | language `eng+tur`, shortcut `CommandOrControl+Shift+O`, no auto-save, magnifier on, save directory `OCR-Sonuclari` under home |
| Settings.Merge | electron/main.ts:46 | each key present in the loaded file overrides the default, each absent key keeps the default |
| Settings.LoadSettings | electron/main.ts:41-52 | a missing or unreadable file gives the defaults; an existing file gives its keys merged over the defaults (so per `Merge` each present key wins), and an empty one the defaults |
| Settings.Stored | electron/main.ts:60-67 | the saved file has every key present |
| Settings.SavedSettings | electron/main.ts:60-66 | the saved settings carry the current language, shortcut, auto-save and directory, and always `showMagnifier: true` |
| Settings.SaveLoadRoundTrip | electron/main.ts:41-67 | loading a saved file gives back exactly what was saved, whatever the defaults |
| Settings.MergeIdempotent | electron/main.ts:46 | merging the same file twice changes nothing more |
| Settings.FindAccelerator | electron/main.ts:193 | the index of the first option with the accelerator, or none when no option has it |
| Settings.LabelFor | electron/main.ts:193 | the label of the first matching option (unless empty), else the fallback |
| Settings.ShortcutAcceleratorsDistinct | electron/main.ts:170-178 | no two selectable shortcuts share an accelerator |
| Settings.KnownShortcutLabels | electron/main.ts:170-193 | every selectable accelerator is shown by its own label |
| MainProcess.FilePrefix | electron/main.ts:124 | `QR` for a QR capture, `OCR` for text recognition |
| MainProcess.SanitizeTimestamp | electron/main.ts:123 | same length, no `:` or `.`, those become `-`, all else kept |
| MainProcess.SanitizeTimestampIdempotent | electron/main.ts:123 | a sanitised timestamp is a fixed point of the sanitiser |
| MainProcess.FileStem | electron/main.ts:123-131 | the shared file stem is `<prefix>_` followed by the sanitised timestamp, and contains no `:` or `.` |
| MainProcess.RecordedLanguage | electron/main.ts:136 | the recorded language is `N/A` for a QR capture, else the current language |
| MainProcess.SaveToFile | electron/main.ts:115-143 | nothing is saved exactly when auto-save is off; otherwise `.txt` and `.json` files with the same stem in the save directory, the text, the mode, the record timestamp, the language, the character count and the number of non-whitespace runs |
| MainProcess.ResultExcerpt | electron/main.ts:518 | texts up to 80 characters unchanged, longer ones cut to 80 plus `...` |
| MainProcess.HistoryEntries | electron/main.ts:287-293 | one menu entry per history item, labelled `<i+1>. <preview>`, copying item i |
| MainProcess.TrayMenu | electron/main.ts:281-320 | 6 entries for an empty history, else 10 plus one per item; the history heading, items and clear entry appear only for a non-empty history; every copy entry refers to an existing item |
| MainProcess.TrayNamesShortcut | electron/main.ts:284-296 | the capture entry shows the configured shortcut's label, or `Ctrl+Shift+O` for an unknown accelerator |
| MainProcess.MainState.constructor | electron/main.ts:107-112 | start-up state comes from the loaded settings, in OCR mode, settings closed, no window nor screenshot yet, empty history |
| MainProcess.MainState.CreateWindow | electron/main.ts:325-344 | the window exists afterwards; nothing else changes |
| MainProcess.MainState.SaveSettings | electron/main.ts:55-72 | the settings file holds the current language, shortcut, auto-save and directory |
| MainProcess.MainState.StartCapture | electron/main.ts:396-450 | with a window, a successful grab shows the overlay and becomes the screenshot; a failed grab keeps the previous one and gives the failure notification; without a window nothing happens |
| MainProcess.MainState.StartModeCapture | electron/main.ts:214-223 | the capture mode is set before capturing |
| MainProcess.MainState.CompleteSelection | electron/main.ts:453-532 | ignored without window or screenshot, rejected for empty bounds; a non-empty result enters the history, is auto-saved per `SaveToFile` and notified by its excerpt; the copied notification reads `📱`/`✓ Kopyalandı!` with ` (kaydedildi)` exactly when auto-save is on; an empty result gives `✗ Bulunamadı` with the mode's not-found message; a recogniser failure in OCR mode keeps the mode and the history; otherwise the mode returns to OCR |
| MainProcess.MainState.OpenSettings | electron/main.ts:545-554 | the settings window is shown exactly when there is a window and it is not already open |
| MainProcess.MainState.CloseSettings | electron/main.ts:556-560 | with a window the settings are marked closed, without one nothing changes |
| MainProcess.MainState.SetAutostart | electron/main.ts:233-266 | the autostart entry exists exactly when enabled, with the matching notification |
| MainProcess.MainState.HandleSaveSettings | electron/main.ts:574-602 | all submitted settings take effect, the hotkey moves exactly when the shortcut changed, autostart follows the form and, when it changed, the first notification is the autostart one, the settings file reloads to the submitted values, and the final notification confirms the save |
| MainProcess.MainState.ChangeShortcut | electron/main.ts:180-201 | an accepted shortcut becomes current, is saved and announced by its label; a refused one leaves shortcut and file unchanged and reports the error |
| Overlay.Normalize | src/App.tsx:69-74 | non-negative width and height, both drag ends on or inside the rectangle, and each edge lies on one of them |
| Overlay.NormalizeSymmetric | src/App.tsx:69-74 | the rectangle does not depend on which end of the drag is the start |
| Overlay.DimBands | src/App.tsx:173-180 | the top band ends where the selection starts, the left strip ends at its left edge, the right strip starts at its right edge, the bottom band starts at its bottom edge and reaches the screen bottom; bands reach the right edge |
| Overlay.DimLayer | src/App.tsx:167-182 | no dimming without a screenshot, the whole screen without a selection, the four bands with one |
| Overlay.DimBandsPartitionScreen | src/App.tsx:167-182 | for a selection on the screen, the selection and the four bands paint every screen pixel exactly once and nothing outside |
| Overlay.OverlayWindow.constructor | src/App.tsx:6-12 | initial state: overlay mode, no image, no selection, not selecting, pointer at the origin, magnifier on |
| Overlay.OverlayWindow.MagnifierVisible | src/App.tsx:127 | the magnifier is drawn exactly while a non-empty screenshot is shown, it is switched on and no drag runs; the handlers below state how each of them changes it |
| Overlay.OverlayWindow.MouseDown | src/App.tsx:57-63 | a non-primary button or a missing screenshot changes nothing; otherwise a drag starts with a 0 by 0 selection at the click and the magnifier is hidden |
| Overlay.OverlayWindow.MouseMove | src/App.tsx:65-75 | the pointer is always tracked; the selection becomes the normalised rectangle only while dragging from a start point |
| Overlay.OverlayWindow.MouseUp | src/App.tsx:77-93 | bounds are sent exactly when the selection exceeds 5 by 5 (then the screenshot is dropped), otherwise the selection is cleared and the magnifier shows again if a screenshot is loaded and it is on; the drag always ends |
| Overlay.OverlayWindow.ContextMenu | src/App.tsx:95-100 | a right click cancels and clears screenshot and selection, hiding the magnifier |
| Overlay.OverlayWindow.KeyDown | src/App.tsx:41-55 | Escape cancels and clears screenshot and selection, hiding the magnifier; `m` or `M` flips the magnifier setting, and so its visibility over a screenshot outside a drag; other keys change nothing |
| Overlay.OverlayWindow.ShowOverlay | src/App.tsx:18-24 | overlay mode, the new screenshot, no selection, not selecting; the magnifier is visible exactly when the screenshot is non-empty and the magnifier is on |
| Overlay.OverlayWindow.ShowSettings | src/App.tsx:26-30 | settings mode and no screenshot, so no magnifier |
| Overlay.DragScenario | src/App.tsx:57-93 | a drag from (10, 20) to (4, 90) sends the rectangle (4, 20, 6, 70), which the main process's bounds check accepts, and two presses of `m` restore the magnifier |
| Editor.ModeLabel | src/Editor.tsx:46-59 | `ocr`, `qr`, `table`, `handwriting` get their fixed headings, every other mode `Metin` |
| Editor.TextEditor.constructor | src/Editor.tsx:11-29 | after mounting, the edited text is the prop and both counts describe it |
| Editor.TextEditor.ReceiveText | src/Editor.tsx:18-24 | a changed text prop replaces the edited text and its counts; the same text keeps the edits |
| Editor.TextEditor.Edit | src/Editor.tsx:26-29 | after an edit the character count is the text length and the word count is the shared word count |
| Editor.TextEditor.HandleCopy | src/Editor.tsx:31-33 | copies the current edited text with the mode |
| Editor.TextEditor.HandleKeyDown | src/Editor.tsx:35-44 | Ctrl+Enter copies the edited text with the mode, Escape closes, any other key does neither |

## Left out

- Shell commands run through `execSync` (the recogniser, the QR decoder, `notify-send` itself, `xdg-open`, the screenshot tools): foreign processes. Their results are parameters (`recognized`, `grab`); only the notification command line is built.
- File-system and JSON work: the settings file is its parsed content (`StoredSettings`), saving yields the file names and the record; serialisation, directory creation and write failures are not modelled.
- Settings.Merge: a loaded file is modelled as the five known keys, each present with its declared type or absent; extra keys, ill-typed values and a JSON value that is not an object are not modelled.
- Settings.JoinPath: `path.join`'s normalisation of `.` and `..` segments and repeated slashes is not modelled.
- Electron APIs: windows, their size and visibility (so the `cancel-selection` handler, which only hides the window, and the window's Escape handler, which hides it and stops the key from reaching the page, are not modelled), the tray object, `Menu.buildFromTemplate`, the clipboard, the folder dialog (`chooseSaveDirectory`, `choose-directory`), `openSaveDirectory`, application life-cycle events, and the `get-settings` handler, which only reads the state.
- MainProcess.MainState.HandleSaveSettings: the set of registered hotkeys is not modelled; the handler's unregister/register calls are reported only as the new accelerator.
- MainProcess.MainState.CompleteSelection: the crop rectangle (floating-point scale factor), the temporary files, and exceptions raised after the history update (a failed auto-save write) are not modelled.
- The desktop entry text written by `setAutostart` and the history entries' click handler (a clipboard write and a notification).
- Clock readings: `new Date()` and `toISOString()` are parameters; the sanitiser is modelled over any string.
- Lengths: the model counts characters; JavaScript's `length` and `substring` count UTF-16 code units, so texts outside the Basic Multilingual Plane differ.
- Pointer coordinates are integers; the browser reports fractional pixels.
- React timing: each event is handled after the previous render; the editor's first render shows a word count of 0 before its mount effect runs.
- Editor.TextEditor.constructor: states the state after the mount effects, not the transient first render.
- Editor.ModeLabel: a mode naming an inherited object property (`constructor`, `toString`) would yield a non-string in JavaScript; the model gives `Metin`.
- Overlay.OverlayWindow.KeyDown: the Escape branch models src/App.tsx:43-47 as written, but in the app it is not reached: the window's `before-input-event` handler (electron/main.ts:346-352) hides the window on Escape and calls `preventDefault`, so the page never receives that key, and the overlay keeps its screenshot, selection and any drag until the next `show-overlay`.
- MainProcess.MainState.ChangeShortcut: `changeShortcut` (electron/main.ts:180-201) has no caller in the main process; the `save-settings` handler moves the hotkey itself (electron/main.ts:581-585), so this path is modelled but not reachable in the app.
- The overlay's event routing: in settings mode the overlay is not rendered, so its mouse handlers are not reached; the model does not route events.
- Magnifier background offsets, all JSX rendering other than the magnifier's visibility condition (src/App.tsx:127), the settings page (field setters and messages) and the preload bridge (message forwarding).
- Table reconstruction from recognised words: no code for it exists in these source files; only a `table` mode heading and a shortcut caption refer to it.

## Findings

| source | as written | input that shows it | evidently intended | confidence | as-written member | corrected member |
|---|---|---|---|---|---|---|
| electron/main.ts:8-10 | the body is cleaned of `"` and newlines only, then placed in double quotes of a `/bin/sh` command | a recognised or copied text `$(reboot)` runs `reboot` through command substitution | the body cannot act on the shell: `$`, backquote and backslash are neutralised as `"` is | medium, not executed | Notification.NotifyCommandRunsSubstitution | Notification.SafeNotifyCommand |
