/** The desktop notification of the main process: the body is cleaned up and
    placed, with the title, inside double quotes of a `notify-send` command line
    that the main process hands to `/bin/sh`. */
module Notification {
  import opened Text

  /** A notification as the main process asks for it, before clean-up. */
  datatype Note = Note(title: string, body: string)

  /** Bodies are cut to this many characters. */
  const BodyLimit: nat := 200

  /** Characters that `/bin/sh` still interprets inside a double-quoted word:
      the closing quote, parameter and command substitution, and the escape. */
  const ShellActive: set<char> := {'"', '$', '`', '\\'}

  predicate ShellInert(s: string) {
    forall i :: 0 <= i < |s| ==> s[i] !in ShellActive
  }

  /** The clean-up as the source writes it: `"` becomes `'`, a newline becomes a
      space, and the result is cut to 200 characters. */
  function SanitizeBodyAsWritten(body: string): (r: string)
    ensures |r| == Min(|body|, BodyLimit)
    ensures forall i :: 0 <= i < |r| ==> r[i] != '"' && r[i] != '\n'
    ensures forall i :: 0 <= i < |r| ==>
      r[i] == (if body[i] == '"' then '\'' else if body[i] == '\n' then ' ' else body[i])
  {
    Prefix(ReplaceAny(ReplaceAny(body, {'"'}, '\''), {'\n'}, ' '), BodyLimit)
  }

  /** A body that is short and has neither quote nor newline passes unchanged. */
  lemma AsWrittenKeepsPlainBody(body: string)
    requires |body| <= BodyLimit
    requires forall i :: 0 <= i < |body| ==> body[i] != '"' && body[i] != '\n'
    ensures SanitizeBodyAsWritten(body) == body
  {
    var r := SanitizeBodyAsWritten(body);
    assert |r| == |body|;
    forall i | 0 <= i < |r| ensures r[i] == body[i] {
    }
  }

  /** The as-written clean-up lets command substitution through: a recognised
      text `$(reboot)` reaches the shell unchanged inside the double quotes. */
  lemma AsWrittenPassesSubstitution()
    ensures SanitizeBodyAsWritten("$(reboot)") == "$(reboot)"
    ensures !ShellInert(SanitizeBodyAsWritten("$(reboot)"))
  {
    var body := "$(reboot)";
    assert forall i :: 0 <= i < |body| ==> body[i] != '"' && body[i] != '\n';
    AsWrittenKeepsPlainBody(body);
    assert body[0] in ShellActive;
  }

  /** The corrected clean-up: as the source, and in addition `$`, a backquote and
      a backslash become spaces, so nothing in the body is active inside the
      double quotes. */
  function SanitizeBody(body: string): (r: string)
    ensures |r| == Min(|body|, BodyLimit)
    ensures ShellInert(r)
    ensures forall i :: 0 <= i < |r| ==> r[i] != '\n'
    ensures forall i :: 0 <= i < |r| && body[i] !in ShellActive && body[i] != '\n' ==> r[i] == body[i]
  {
    Prefix(ReplaceAny(ReplaceAny(ReplaceAny(body, {'"'}, '\''), {'\n'}, ' '), {'$', '`', '\\'}, ' '), BodyLimit)
  }

  /** On a body without `$`, backquote or backslash the corrected clean-up is the
      source's. */
  lemma SanitizeBodyAgrees(body: string)
    requires forall i :: 0 <= i < |body| ==> body[i] != '$' && body[i] != '`' && body[i] != '\\'
    ensures SanitizeBody(body) == SanitizeBodyAsWritten(body)
  {
    var a, b := SanitizeBody(body), SanitizeBodyAsWritten(body);
    assert |a| == |b|;
    forall i | 0 <= i < |a| ensures a[i] == b[i] {
    }
  }

  const CommandHead: string := "notify-send \""
  const CommandTail: string := "\" -t 3000"

  /** The command line `showNotification(title, body)` runs: the title, then
      the body as the source cleans it, each in double quotes, and a display
      time of 3000 ms. A `"` or a newline in the body cannot end its quotes. */
  function NotifyCommand(title: string, body: string): (r: string)
    ensures |r| == |CommandHead| + |title| + 3 + Min(|body|, BodyLimit) + |CommandTail|
    ensures r[..|CommandHead|] == CommandHead
    ensures r[|r| - |CommandTail|..] == CommandTail
    ensures r[|CommandHead|..|CommandHead| + |title|] == title
    ensures r[|r| - |CommandTail| - Min(|body|, BodyLimit)..|r| - |CommandTail|] == SanitizeBodyAsWritten(body)
    ensures var seg := r[|r| - |CommandTail| - Min(|body|, BodyLimit)..|r| - |CommandTail|];
      forall i :: 0 <= i < |seg| ==> seg[i] != '"' && seg[i] != '\n'
  {
    var b := SanitizeBodyAsWritten(body);
    var r := CommandHead + title + "\" \"" + b + CommandTail;
    assert r[|CommandHead|..|CommandHead| + |title|] == title;
    assert r[|r| - |CommandTail| - |b|..|r| - |CommandTail|] == b;
    r
  }

  /** The command as `showNotification` runs it for the body `$(reboot)`: the
      substitution reaches the shell inside double quotes. */
  lemma NotifyCommandRunsSubstitution(title: string)
    ensures var r := NotifyCommand(title, "$(reboot)");
      r[|r| - |CommandTail| - 9..|r| - |CommandTail|] == "$(reboot)"
  {
    AsWrittenPassesSubstitution();
  }

  /** The corrected command line: the same shape, built from the corrected
      clean-up, so the quoted body segment is shell-inert. */
  function SafeNotifyCommand(title: string, body: string): (r: string)
    ensures |r| == |CommandHead| + |title| + 3 + Min(|body|, BodyLimit) + |CommandTail|
    ensures r[..|CommandHead|] == CommandHead
    ensures r[|r| - |CommandTail|..] == CommandTail
    ensures r[|CommandHead|..|CommandHead| + |title|] == title
    ensures r[|r| - |CommandTail| - Min(|body|, BodyLimit)..|r| - |CommandTail|] == SanitizeBody(body)
    ensures ShellInert(r[|r| - |CommandTail| - Min(|body|, BodyLimit)..|r| - |CommandTail|])
  {
    var b := SanitizeBody(body);
    var r := CommandHead + title + "\" \"" + b + CommandTail;
    assert r[|CommandHead|..|CommandHead| + |title|] == title;
    assert r[|r| - |CommandTail| - |b|..|r| - |CommandTail|] == b;
    r
  }
}
