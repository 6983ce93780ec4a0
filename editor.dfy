/** The result editor of the renderer: the edited text with its character and
    word counts kept up to date, the keyboard shortcuts, and the heading chosen
    by capture mode. */
module Editor {
  import opened Text

  /** `modeLabels`. */
  const ModeLabels: map<string, string> := map[
    "ocr" := "OCR Sonucu",
    "qr" := "QR/Barkod",
    "table" := "Tablo",
    "handwriting" := "El Yazısı"
  ]

  /** `modeLabels[mode] || 'Metin'`. */
  function ModeLabel(mode: string): (r: string)
    ensures mode == "ocr" ==> r == "OCR Sonucu"
    ensures mode == "qr" ==> r == "QR/Barkod"
    ensures mode == "table" ==> r == "Tablo"
    ensures mode == "handwriting" ==> r == "El Yazısı"
    ensures mode != "ocr" && mode != "qr" && mode != "table" && mode != "handwriting" ==> r == "Metin"
  {
    if mode in ModeLabels && ModeLabels[mode] != [] then ModeLabels[mode] else "Metin"
  }

  /** A call the editor makes to its parent. */
  datatype EditorCall = Copy(text: string, mode: string) | Close

  /** The editor component's props and state. */
  class TextEditor {
    /** The `text` prop. */
    var text: string
    /** The `mode` prop. */
    var mode: string
    var editedText: string
    var charCount: nat
    var wordCount: nat

    /** The counts shown always describe the edited text. */
    ghost predicate Valid()
      reads this
    {
      charCount == |editedText| && wordCount == WordCount(editedText)
    }

    /** Mounting, with the effects that run after the first render. */
    constructor (text: string, mode: string)
      ensures Valid()
      ensures this.text == text && this.mode == mode && editedText == text
    {
      this.text := text;
      this.mode := mode;
      editedText := text;
      charCount := |text|;
      wordCount := WordCount(text);
    }

    /** A new `text` prop: a different text replaces the edited one; the same
        text keeps the user's edits. */
    method ReceiveText(newText: string)
      requires Valid()
      modifies this
      ensures Valid()
      ensures text == newText && mode == old(mode)
      ensures editedText == if newText != old(text) then newText else old(editedText)
    {
      if newText != text {
        editedText := newText;
        charCount := |newText|;
        wordCount := WordCount(newText);
      }
      text := newText;
    }

    /** The textarea's change event. */
    method Edit(value: string)
      requires Valid()
      modifies this
      ensures Valid()
      ensures editedText == value && text == old(text) && mode == old(mode)
    {
      editedText := value;
      charCount := |value|;
      wordCount := WordCount(value);
    }

    /** `handleCopy`. */
    method HandleCopy() returns (call: EditorCall)
      ensures call.Copy? && call.text == editedText && call.mode == mode
    {
      call := Copy(editedText, mode);
    }

    /** `handleKeyDown`: Ctrl+Enter copies the edited text, Escape closes, and
        any other key does neither. */
    method HandleKeyDown(ctrl: bool, key: string) returns (calls: seq<EditorCall>)
      ensures |calls| <= 1
      ensures Copy(editedText, mode) in calls <==> ctrl && key == "Enter"
      ensures Close in calls <==> key == "Escape"
      ensures forall c :: c in calls && c.Copy? ==> c == Copy(editedText, mode)
    {
      calls := [];
      if ctrl && key == "Enter" {
        var c := HandleCopy();
        calls := calls + [c];
      }
      if key == "Escape" {
        calls := calls + [Close];
      }
    }
  }
}
