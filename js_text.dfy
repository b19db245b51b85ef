/**
 * The few JavaScript string and array built-ins the registry relies on:
 * `indexOf` on strings (a substring search) and on arrays (a strict-equality
 * search), truthiness of a searchable value, and `join`, with `split` as the
 * reference definition that undoes `join`.
 */
module JsText {

  /** `pat` occurs in `text` starting at index `i`. */
  predicate OccursAt(pat: string, text: string, i: int)
  {
    0 <= i && i + |pat| <= |text| && text[i..i + |pat|] == pat
  }

  ghost predicate IsSubstring(pat: string, text: string)
  {
    exists i :: OccursAt(pat, text, i)
  }

  /** The search `text.indexOf(pat)` does once it has ruled out every start before `from`. */
  function IndexFrom(text: string, pat: string, from: nat): (k: int)
    requires from <= |text|
    decreases |text| - from
    ensures k == -1 || (from <= k && OccursAt(pat, text, k))
    ensures forall j :: from <= j && (k == -1 || j < k) ==> !OccursAt(pat, text, j)
  {
    if from + |pat| > |text| then -1
    else if text[from..from + |pat|] == pat then from
    else IndexFrom(text, pat, from + 1)
  }

  /** `text.indexOf(pat)`: the first index where `pat` occurs, or -1. */
  function StrIndexOf(text: string, pat: string): (k: int)
    ensures k >= -1
    ensures k >= 0 <==> IsSubstring(pat, text)
    ensures k >= 0 ==> OccursAt(pat, text, k)
    ensures forall j :: 0 <= j && (k == -1 || j < k) ==> !OccursAt(pat, text, j)
  {
    IndexFrom(text, pat, 0)
  }

  /** `items.indexOf(x)` on an array of strings: the first index holding `x`, or -1. */
  function ArrIndexOf(items: seq<string>, x: string): (k: int)
    ensures -1 <= k < |items|
    ensures k == -1 <==> x !in items
    ensures k >= 0 ==> items[k] == x && x !in items[..k]
  {
    if |items| == 0 then -1
    else if items[0] == x then 0
    else
      var k := ArrIndexOf(items[1..], x);
      if k == -1 then -1
      else
        assert items[..k + 1] == [items[0]] + items[1..][..k];
        k + 1
  }

  /** A value the registry searches with `indexOf`: an array of names or a (space-separated) string. */
  datatype Listing = ArrayOf(items: seq<string>) | StringOf(text: string)

  /** `l.indexOf(name) > -1`: membership for an array, a substring test for a string. */
  function Lists(l: Listing, name: string): (r: bool)
    ensures l.ArrayOf? ==> (r <==> name in l.items)
    ensures l.StringOf? ==> (r <==> IsSubstring(name, l.text))
  {
    match l
    case ArrayOf(items) => ArrIndexOf(items, name) > -1
    case StringOf(text) => StrIndexOf(text, name) > -1
  }

  /** JavaScript truthiness of a searchable value: every array is truthy, only the empty string is not. */
  function Truthy(l: Listing): (r: bool)
    ensures !r <==> l == StringOf("")
  {
    l.ArrayOf? || l.text != ""
  }

  /** `ws.join(sep)` for a one-character separator: every word occurs in the result. */
  function Join(ws: seq<string>, sep: char): (r: string)
    ensures |ws| == 0 ==> r == ""
    ensures forall w :: w in ws ==> IsSubstring(w, r)
  {
    if |ws| == 0 then ""
    else if |ws| == 1 then
      assert OccursAt(ws[0], ws[0], 0);
      ws[0]
    else
      var tail := Join(ws[1..], sep);
      assert OccursAt(ws[0], ws[0] + [sep] + tail, 0);
      SubstringsOfSuffix(ws[0] + [sep], tail);
      assert forall w :: w in ws ==> w == ws[0] || w in ws[1..];
      ws[0] + [sep] + tail
  }

  /** `s.split(sep)` for a one-character separator; never empty (`"".split(" ")` is `[""]`). */
  function Split(s: string, sep: char): (ws: seq<string>)
    decreases |s|
    ensures |ws| >= 1
  {
    if |s| == 0 then [""]
    else
      var rest := Split(s[1..], sep);
      if s[0] == sep then [""] + rest else [[s[0]] + rest[0]] + rest[1..]
  }

  /** Joining one more word appends the separator and that word. */
  lemma {:induction false} JoinSnoc(ws: seq<string>, w: string, sep: char)
    requires |ws| >= 1
    ensures Join(ws + [w], sep) == Join(ws, sep) + [sep] + w
  {
    if |ws| == 1 {
      assert (ws + [w])[1..] == [w];
    } else {
      assert (ws + [w])[1..] == ws[1..] + [w];
      JoinSnoc(ws[1..], w, sep);
    }
  }

  /** A word free of the separator splits to itself. */
  lemma {:induction false} SplitWord(w: string, sep: char)
    requires sep !in w
    ensures Split(w, sep) == [w]
  {
    if |w| > 0 {
      SplitWord(w[1..], sep);
      assert [w[0]] + w[1..] == w;
    }
  }

  /** Splitting at the first separator peels off the word before it. */
  lemma {:induction false} SplitFirstWord(w: string, sep: char, t: string)
    requires sep !in w
    ensures Split(w + [sep] + t, sep) == [w] + Split(t, sep)
  {
    var s := w + [sep] + t;
    if |w| == 0 {
      assert s[0] == sep && s[1..] == t;
    } else {
      assert s[0] == w[0] && s[1..] == w[1..] + [sep] + t;
      SplitFirstWord(w[1..], sep, t);
      assert [w[0]] + w[1..] == w;
    }
  }

  /** `split` undoes `join` when no word contains the separator and there is at least one word. */
  lemma {:induction false} SplitJoin(ws: seq<string>, sep: char)
    requires |ws| >= 1
    requires forall w :: w in ws ==> sep !in w
    ensures Split(Join(ws, sep), sep) == ws
  {
    if |ws| == 1 {
      SplitWord(ws[0], sep);
    } else {
      SplitJoin(ws[1..], sep);
      SplitFirstWord(ws[0], sep, Join(ws[1..], sep));
      assert [ws[0]] + ws[1..] == ws;
    }
  }

  /** An occurrence inside `text` is still an occurrence once `pre` is put in front. */
  lemma OccursAfter(pat: string, pre: string, text: string, i: int)
    requires OccursAt(pat, text, i)
    ensures OccursAt(pat, pre + text, |pre| + i)
  {
    assert (pre + text)[|pre| + i..|pre| + i + |pat|] == text[i..i + |pat|];
  }

  /** An occurrence inside a prefix is an occurrence in the whole string. */
  lemma OccursBefore(pat: string, text: string, post: string, i: int)
    requires OccursAt(pat, text, i)
    ensures OccursAt(pat, text + post, i)
  {
    assert (text + post)[i..i + |pat|] == text[i..i + |pat|];
  }

  /** Every substring of `text` is a substring of `pre + text`. */
  lemma SubstringsOfSuffix(pre: string, text: string)
    ensures forall pat :: IsSubstring(pat, text) ==> IsSubstring(pat, pre + text)
  {
    forall pat | IsSubstring(pat, text)
      ensures IsSubstring(pat, pre + text)
    {
      var i :| OccursAt(pat, text, i);
      OccursAfter(pat, pre, text, i);
    }
  }

  /** Occurrence is transitive: a substring of a substring is a substring. */
  lemma OccursWithin(a: string, b: string, c: string, i: int, j: int)
    requires OccursAt(a, b, i) && OccursAt(b, c, j)
    ensures OccursAt(a, c, j + i)
  {
    forall t | 0 <= t < |a|
      ensures c[j + i..j + i + |a|][t] == a[t]
    {
      assert a[t] == b[i..i + |a|][t] == b[i + t];
      assert b[i + t] == c[j..j + |b|][i + t] == c[j + i + t];
    }
  }
}
