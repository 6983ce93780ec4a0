/** The main process's in-memory list of the last recognised texts, newest
    first, at most `MaxHistory` long, and the tray-menu labels built from it. */
module History {
  import opened Text

  const MaxHistory: nat := 10
  const PreviewLength: nat := 30

  /** Milliseconds since the epoch, as `new Date()` records them; supplied by the caller. */
  type Timestamp = int

  datatype HistoryItem = HistoryItem(text: string, timestamp: Timestamp, preview: string)

  /** The first 30 characters with each newline shown as a space, and `...` when
      the text was longer. */
  function Preview(text: string): (r: string)
    ensures |r| == if |text| > PreviewLength then PreviewLength + 3 else |text|
    ensures forall i :: 0 <= i < |r| ==> r[i] != '\n'
    ensures forall i :: 0 <= i < Min(|text|, PreviewLength) ==>
      r[i] == (if text[i] == '\n' then ' ' else text[i])
    ensures |text| > PreviewLength ==> r[PreviewLength..] == "..."
    ensures |text| <= PreviewLength && (forall i :: 0 <= i < |text| ==> text[i] != '\n') ==> r == text
  {
    ReplaceAny(Prefix(text, PreviewLength), {'\n'}, ' ') + (if |text| > PreviewLength then "..." else "")
  }

  /** The list after `unshift(item)` and, when it then exceeds the bound, `pop()`. */
  function Pushed(h: seq<HistoryItem>, item: HistoryItem): (r: seq<HistoryItem>)
    ensures |r| == if |h| + 1 > MaxHistory then |h| else |h| + 1
    ensures r[0] == item
    ensures forall i :: 0 <= i < |r| - 1 ==> r[i + 1] == h[i]
    ensures |h| < MaxHistory ==> r[1..] == h
  {
    var grown := [item] + h;
    if |grown| > MaxHistory then grown[..|grown| - 1] else grown
  }

  /** Adding the items one after another, oldest first. */
  function PushAll(h: seq<HistoryItem>, items: seq<HistoryItem>): seq<HistoryItem>
    decreases |items|
  {
    if items == [] then h else PushAll(Pushed(h, items[0]), items[1..])
  }

  function Reversed(s: seq<HistoryItem>): (r: seq<HistoryItem>)
    ensures |r| == |s|
    ensures forall i :: 0 <= i < |s| ==> r[i] == s[|s| - 1 - i]
  {
    if s == [] then [] else Reversed(s[1..]) + [s[0]]
  }

  lemma PrefixesAgree<T>(a: seq<T>, c: seq<T>, k: nat, n: nat)
    requires k <= |c| && n <= |a| + k
    ensures (a + c[..k])[..n] == (a + c)[..n]
  {
    assert forall i :: 0 <= i < n ==> (a + c[..k])[i] == (a + c)[i];
  }

  lemma PushedIsPrefix(h: seq<HistoryItem>, x: HistoryItem)
    requires |h| <= MaxHistory
    ensures Pushed(h, x) == ([x] + h)[..Min(|h| + 1, MaxHistory)]
  {
    var g := [x] + h;
    if |g| <= MaxHistory {
      assert g[..|g|] == g;
    }
  }

  lemma ReversedCons(items: seq<HistoryItem>)
    requires items != []
    ensures Reversed(items) == Reversed(items[1..]) + [items[0]]
  {
  }

  lemma StepShape<T>(a: seq<T>, x: T, h: seq<T>, p: seq<T>, r: seq<T>)
    requires |h| <= MaxHistory && p == ([x] + h)[..Min(|h| + 1, MaxHistory)] && r == a + [x]
    ensures (a + p)[..Min(|a| + |p|, MaxHistory)] == (r + h)[..Min(|r| + |h|, MaxHistory)]
  {
    var c := [x] + h;
    var n := Min(|r| + |h|, MaxHistory);
    PrefixesAgree(a, c, Min(|h| + 1, MaxHistory), n);
    assert a + c == r + h;
  }

  lemma PushStep(h: seq<HistoryItem>, items: seq<HistoryItem>)
    requires |h| <= MaxHistory && items != []
    ensures (Reversed(items[1..]) + Pushed(h, items[0]))[..Min(|items[1..]| + |Pushed(h, items[0])|, MaxHistory)]
         == (Reversed(items) + h)[..Min(|Reversed(items)| + |h|, MaxHistory)]
  {
    var a, p, r := Reversed(items[1..]), Pushed(h, items[0]), Reversed(items);
    PushedIsPrefix(h, items[0]);
    ReversedCons(items);
    assert |a| == |items[1..]|;
    StepShape(a, items[0], h, p, r);
  }

  /** Whatever is added, the list holds the `MaxHistory` most recent items,
      newest first, followed by what was there before while room remains. */
  lemma {:induction false} PushAllKeepsMostRecent(h: seq<HistoryItem>, items: seq<HistoryItem>)
    requires |h| <= MaxHistory
    ensures PushAll(h, items) == (Reversed(items) + h)[..Min(|items| + |h|, MaxHistory)]
    decreases |items|
  {
    if items == [] {
      assert Reversed(items) + h == h;
    } else {
      PushAllKeepsMostRecent(Pushed(h, items[0]), items[1..]);
      PushStep(h, items);
    }
  }

  /** The tray-menu labels: `<n>. <preview>`, numbered from `first` in list order. */
  function MenuLabels(items: seq<HistoryItem>, first: nat): (r: seq<string>)
    ensures |r| == |items|
    ensures forall i :: 0 <= i < |r| ==> r[i] == NatToString(first + i) + ". " + items[i].preview
  {
    if items == [] then [] else [NatToString(first) + ". " + items[0].preview] + MenuLabels(items[1..], first + 1)
  }

  /** The module-level `ocrHistory` array. */
  class OcrHistory {
    var items: seq<HistoryItem>

    ghost predicate Valid()
      reads this
    {
      && |items| <= MaxHistory
      && forall i :: 0 <= i < |items| ==> items[i].preview == Preview(items[i].text)
    }

    constructor ()
      ensures Valid() && items == []
    {
      items := [];
    }

    /** `addToHistory(text)`, stamped with the caller's clock reading `now`. */
    method Add(text: string, now: Timestamp)
      requires Valid()
      modifies this
      ensures Valid()
      ensures items == Pushed(old(items), HistoryItem(text, now, Preview(text)))
    {
      var item := HistoryItem(text, now, Preview(text));
      items := [item] + items;
      if |items| > MaxHistory {
        items := items[..|items| - 1];
      }
    }

    /** The tray's "clear history" entry: `ocrHistory.length = 0`. */
    method Clear()
      requires Valid()
      modifies this
      ensures Valid() && items == []
    {
      items := [];
    }
  }
}
