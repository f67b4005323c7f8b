/** The word-capped comment field (src/components/ui/textarea.tsx): a textarea that counts
    the words typed into it, cuts the text back to its first `maxWords` words when there are
    more, keeps a word-count readout and then hands the (possibly cut) value to its parent. */
module WordCap {
  import opened Text

  /** A word: a non-empty run of non-white-space characters. */
  predicate IsWord(w: string) {
    w != [] && NoSpace(w)
  }

  /** Length of the run of non-white-space characters at the head of `s`. */
  function RunLength(s: string): (n: nat)
    ensures n <= |s|
    ensures forall i :: 0 <= i < n ==> !IsSpace(s[i])
    ensures n < |s| ==> IsSpace(s[n])
  {
    if s == [] || IsSpace(s[0]) then 0 else 1 + RunLength(s[1..])
  }

  /** The maximal non-white-space runs of `s`, in order. On a trimmed, non-blank text this is
      what `split(/\s+/)` returns. */
  function Words(s: string): (ws: seq<string>)
    ensures forall i :: 0 <= i < |ws| ==> IsWord(ws[i])
    decreases |s|
  {
    if s == [] then []
    else if IsSpace(s[0]) then Words(s[1..])
    else
      var n := RunLength(s);
      [s[..n]] + Words(s[n..])
  }

  function TrimStart(s: string): string {
    if s != [] && IsSpace(s[0]) then TrimStart(s[1..]) else s
  }

  function TrimEnd(s: string): string {
    if s != [] && IsSpace(s[|s| - 1]) then TrimEnd(s[..|s| - 1]) else s
  }

  /** `String.prototype.trim`. */
  function Trim(s: string): string {
    TrimEnd(TrimStart(s))
  }

  /** Words separated by single spaces: `Array.prototype.join(" ")`. */
  function Join(ws: seq<string>): string {
    if ws == [] then []
    else if |ws| == 1 then ws[0]
    else ws[0] + " " + Join(ws[1..])
  }

  /** The count of `handleChange`: 0 for a blank text, otherwise the number of pieces that
      splitting the trimmed text on white-space runs gives. It is the number of words, and it
      is 0 exactly when every character is white space. */
  function WordCount(text: string): (n: nat)
    ensures n == |Words(text)|
    ensures n == 0 <==> AllSpace(text)
  {
    WordsOfTrim(text);
    WordsBlank(text);
    if Trim(text) == [] then 0 else |Words(Trim(text))|
  }

  /** The value `handleChange` leaves in the field: when a non-zero cap is exceeded, the
      first `maxWords` words joined by single spaces; otherwise the text as typed. The words
      kept are exactly the first `maxWords` words of the input (none is split), a non-zero cap
      is never exceeded, a rewritten value has no leading or trailing white space and its
      words are separated by single spaces, and a text within the cap is kept unchanged. */
  function Truncate(text: string, maxWords: nat): (r: string)
    ensures Words(r) == if maxWords != 0 && WordCount(text) > maxWords
                        then Words(text)[..maxWords] else Words(text)
    ensures maxWords != 0 ==> WordCount(r) <= maxWords
    ensures r == text || (r != [] && !IsSpace(r[0]) && !IsSpace(r[|r| - 1]))
    ensures !(maxWords != 0 && WordCount(text) > maxWords) ==> r == text
    ensures maxWords != 0 && WordCount(text) > maxWords ==> SingleSpaced(r)
  {
    if maxWords != 0 && WordCount(text) > maxWords then
      WordsOfTrim(text);
      var kept := Words(Trim(text))[..maxWords];
      WordsOfJoin(kept);
      JoinHasNoOuterSpace(kept);
      JoinIsSingleSpaced(kept);
      Join(kept)
    else
      text
  }

  /** Feeding a value that is already cut back through the field changes nothing. */
  lemma TruncateIdempotent(text: string, maxWords: nat)
    ensures Truncate(Truncate(text, maxWords), maxWords) == Truncate(text, maxWords)
  {
  }

  /** The count that `handleChange` stores is taken before the cut, so it can exceed the
      cap while the field holds exactly `maxWords` words: typing "a b c" under a cap of 2
      leaves "a b" in the field and 3 on the readout. */
  lemma StoredCountCanExceedCap()
    ensures WordCount("a b c") == 3
    ensures Truncate("a b c", 2) == "a b"
  {
    WordsOfSample();
    WordsOfTrim("a b c");
    assert Words(Trim("a b c"))[..2] == ["a", "b"];
    assert Join(["a", "b"]) == "a b";
  }

  lemma WordsOfSample()
    ensures Words("a b c") == ["a", "b", "c"]
  {
    var ws := ["a", "b", "c"];
    assert ws[1..] == ["b", "c"] && ws[1..][1..] == ["c"];
    assert Join(["b", "c"]) == "b c";
    assert Join(ws) == "a b c";
    WordsOfJoin(ws);
  }

  /** Where a word starts: a non-white-space character at the front or after white space. */
  predicate StartsWord(s: string, i: nat)
    requires i < |s|
  {
    !IsSpace(s[i]) && (i == 0 || IsSpace(s[i - 1]))
  }

  /** The number of word starts at positions `i` and later. */
  function StartsFrom(s: string, i: nat): nat
    requires i <= |s|
    decreases |s| - i
  {
    if i == |s| then 0 else (if StartsWord(s, i) then 1 else 0) + StartsFrom(s, i + 1)
  }

  /** The word count is the number of places where a word starts, counted position by
      position: the count of maximal non-white-space runs. */
  lemma WordCountIsRunCount(text: string)
    ensures WordCount(text) == StartsFrom(text, 0)
  {
    WordsStartsFrom(text, 0);
    assert text[0..] == text;
  }

  lemma {:induction false} WordsStartsFrom(s: string, k: nat)
    requires k <= |s|
    requires k == 0 || IsSpace(s[k - 1])
    ensures |Words(s[k..])| == StartsFrom(s, k)
    decreases |s| - k, 1
  {
    if k == |s| {
      assert s[k..] == [];
    } else if IsSpace(s[k]) {
      SpaceStep(s, k);
      WordsStartsFrom(s, k + 1);
    } else {
      WordsStartsFromWord(s, k);
    }
  }

  /** The case of WordsStartsFrom where a word starts at `k`. */
  lemma {:induction false} WordsStartsFromWord(s: string, k: nat)
    requires k < |s| && !IsSpace(s[k])
    requires k == 0 || IsSpace(s[k - 1])
    ensures |Words(s[k..])| == StartsFrom(s, k)
    decreases |s| - k, 0
  {
    var n := WordStep(s, k);
    if k + n < |s| {
      SpaceThenRest(s, k + n);
    } else {
      assert s[k + n..] == [];
    }
  }

  /** The case of WordsStartsFrom at white space that ends a word. */
  lemma {:induction false} SpaceThenRest(s: string, j: nat)
    requires j < |s| && IsSpace(s[j])
    ensures |Words(s[j..])| == StartsFrom(s, j)
    decreases |s| - j, 2
  {
    SpaceStep(s, j);
    WordsStartsFrom(s, j + 1);
  }

  /** White space at `k` starts no word and adds none. */
  lemma SpaceStep(s: string, k: nat)
    requires k < |s| && IsSpace(s[k])
    ensures |Words(s[k..])| == |Words(s[k + 1..])|
    ensures StartsFrom(s, k) == StartsFrom(s, k + 1)
  {
    assert s[k..][1..] == s[k + 1..];
  }

  /** A word starting at `k` accounts for one word and one word start, so the two counts agree
      from `k` when they agree after its `n` characters. */
  lemma WordStep(s: string, k: nat) returns (n: nat)
    requires k < |s| && !IsSpace(s[k])
    requires k == 0 || IsSpace(s[k - 1])
    ensures 0 < n && k + n <= |s|
    ensures k + n < |s| ==> IsSpace(s[k + n])
    ensures |Words(s[k + n..])| == StartsFrom(s, k + n) ==> |Words(s[k..])| == StartsFrom(s, k)
  {
    var t := s[k..];
    assert t[0] == s[k];
    n := RunLength(t);
    assert |Words(t)| == 1 + |Words(t[n..])|;
    assert t[n..] == s[k + n..];
    if k + n < |s| {
      assert s[k + n] == t[n];
    }
    forall m | k <= m < k + n
      ensures !IsSpace(s[m])
    {
      assert s[m] == t[m - k];
    }
    NoStartsInsideRun(s, k + 1, k + n);
    assert StartsFrom(s, k) == 1 + StartsFrom(s, k + n);
  }

  lemma {:induction false} NoStartsInsideRun(s: string, i: nat, j: nat)
    requires 0 < i <= j <= |s|
    requires forall m :: i - 1 <= m < j ==> !IsSpace(s[m])
    ensures StartsFrom(s, i) == StartsFrom(s, j)
    decreases j - i
  {
    if i < j {
      NoStartsInsideRun(s, i + 1, j);
    }
  }

  /** A text is blank (every character white space) exactly when it has no word and exactly
      when trimming empties it. */
  lemma {:induction false} WordsBlank(s: string)
    ensures Words(s) == [] <==> AllSpace(s)
    ensures Trim(s) == [] <==> AllSpace(s)
    decreases |s|
  {
    if s != [] {
      WordsBlank(s[1..]);
      if AllSpace(s) {
        assert AllSpace(TrimStart(s)) by { TrimStartIsSuffix(s); }
        AllSpaceTrimEnd(TrimStart(s));
      } else {
        var i :| 0 <= i < |s| && !IsSpace(s[i]);
        TrimKeeps(s, i);
      }
    }
  }

  lemma {:induction false} TrimStartIsSuffix(s: string)
    ensures exists k :: 0 <= k <= |s| && TrimStart(s) == s[k..]
    decreases |s|
  {
    if s != [] && IsSpace(s[0]) {
      TrimStartIsSuffix(s[1..]);
      var k :| 0 <= k <= |s[1..]| && TrimStart(s[1..]) == s[1..][k..];
      assert s[1..][k..] == s[k + 1..];
    } else {
      assert s[0..] == s;
    }
  }

  lemma {:induction false} AllSpaceTrimEnd(s: string)
    requires AllSpace(s)
    ensures TrimEnd(s) == []
    decreases |s|
  {
    if s != [] {
      AllSpaceTrimEnd(s[..|s| - 1]);
    }
  }

  /** Trimming keeps a text that holds a non-white-space character non-empty. */
  lemma {:induction false} TrimKeeps(s: string, i: nat)
    requires i < |s| && !IsSpace(s[i])
    ensures Trim(s) != []
    decreases |s|
  {
    if IsSpace(s[0]) {
      assert s[1..][i - 1] == s[i];
      TrimKeeps(s[1..], i - 1);
    } else {
      TrimEndKeepsHead(s);
    }
  }

  lemma {:induction false} TrimEndKeepsHead(s: string)
    requires s != [] && !IsSpace(s[0])
    ensures TrimEnd(s) != []
    decreases |s|
  {
    if IsSpace(s[|s| - 1]) {
      TrimEndKeepsHead(s[..|s| - 1]);
    }
  }

  /** Trimming does not change the words. */
  lemma WordsOfTrim(s: string)
    ensures Words(Trim(s)) == Words(s)
  {
    WordsOfTrimStart(s);
    WordsOfTrimEnd(TrimStart(s));
  }

  lemma {:induction false} WordsOfTrimStart(s: string)
    ensures Words(TrimStart(s)) == Words(s)
    decreases |s|
  {
    if s != [] && IsSpace(s[0]) {
      WordsOfTrimStart(s[1..]);
    }
  }

  lemma {:induction false} WordsOfTrimEnd(s: string)
    ensures Words(TrimEnd(s)) == Words(s)
    decreases |s|
  {
    if s != [] && IsSpace(s[|s| - 1]) {
      var p := s[..|s| - 1];
      WordsOfTrimEnd(p);
      assert s == p + [s[|s| - 1]];
      WordsAppendSpace(p, s[|s| - 1]);
    }
  }

  /** A trailing white-space character adds no word. */
  lemma {:induction false} WordsAppendSpace(s: string, c: char)
    requires IsSpace(c)
    ensures Words(s + [c]) == Words(s)
    decreases |s|
  {
    var t := s + [c];
    if s == [] {
      assert t[1..] == [];
    } else if IsSpace(s[0]) {
      assert t[1..] == s[1..] + [c];
      WordsAppendSpace(s[1..], c);
    } else {
      var n := RunLength(s);
      RunLengthAppend(s, [c]);
      assert t[..n] == s[..n];
      assert t[n..] == s[n..] + [c];
      WordsAppendSpace(s[n..], c);
    }
  }

  /** Appending to a text whose head run already ends leaves that run alone. */
  lemma {:induction false} RunLengthAppend(s: string, t: string)
    requires RunLength(s) < |s| || (t != [] && IsSpace(t[0]))
    ensures RunLength(s + t) == RunLength(s)
    decreases |s|
  {
    if s == [] {
    } else if IsSpace(s[0]) {
    } else {
      assert (s + t)[1..] == s[1..] + t;
      RunLengthAppend(s[1..], t);
    }
  }

  /** The round trip of the cut: splitting words joined by single spaces gives them back. */
  lemma {:induction false} WordsOfJoin(ws: seq<string>)
    requires forall i :: 0 <= i < |ws| ==> IsWord(ws[i])
    ensures Words(Join(ws)) == ws
    decreases |ws|
  {
    if ws == [] {
    } else if |ws| == 1 {
      WordsOfWord(ws[0]);
    } else {
      var w, rest := ws[0], Join(ws[1..]);
      var s := w + " " + rest;
      assert s == w + (" " + rest);
      RunLengthOfWord(w);
      RunLengthAppend(w, " " + rest);
      assert s[..|w|] == w;
      assert s[|w|..] == " " + rest;
      assert (" " + rest)[1..] == rest;
      WordsOfJoin(ws[1..]);
    }
  }

  lemma {:induction false} RunLengthOfWord(w: string)
    requires NoSpace(w)
    ensures RunLength(w) == |w|
    decreases |w|
  {
    if w != [] {
      RunLengthOfWord(w[1..]);
    }
  }

  lemma WordsOfWord(w: string)
    requires IsWord(w)
    ensures Words(w) == [w]
  {
    RunLengthOfWord(w);
    assert w[..|w|] == w;
    assert w[|w|..] == [];
  }

  /** Words joined by single spaces neither start nor end with white space. */
  lemma {:induction false} JoinHasNoOuterSpace(ws: seq<string>)
    requires ws != []
    requires forall i :: 0 <= i < |ws| ==> IsWord(ws[i])
    ensures Join(ws) != [] && !IsSpace(Join(ws)[0]) && !IsSpace(Join(ws)[|Join(ws)| - 1])
    decreases |ws|
  {
    if |ws| > 1 {
      JoinHasNoOuterSpace(ws[1..]);
      var rest := Join(ws[1..]);
      assert Join(ws)[|Join(ws)| - 1] == rest[|rest| - 1];
    }
  }

  /** The only white space in `r` is single ' ' characters, each between two non-white-space
      characters. */
  predicate SingleSpaced(r: string) {
    forall i :: 0 <= i < |r| && IsSpace(r[i]) ==>
      r[i] == ' ' && 0 < i < |r| - 1 && !IsSpace(r[i + 1])
  }

  lemma {:induction false} JoinIsSingleSpaced(ws: seq<string>)
    requires forall i :: 0 <= i < |ws| ==> IsWord(ws[i])
    ensures SingleSpaced(Join(ws))
    decreases |ws|
  {
    if |ws| > 1 {
      var w, rest := ws[0], Join(ws[1..]);
      JoinIsSingleSpaced(ws[1..]);
      JoinHasNoOuterSpace(ws[1..]);
      var r := Join(ws);
      assert r == w + " " + rest;
      forall i | 0 <= i < |r| && IsSpace(r[i])
        ensures r[i] == ' ' && 0 < i < |r| - 1 && !IsSpace(r[i + 1])
      {
        if i < |w| {
          assert false;
        } else if i > |w| {
          assert r[i] == rest[i - |w| - 1];
          assert r[i + 1] == rest[i - |w|];
        } else {
          assert r[i + 1] == rest[0];
        }
      }
    }
  }

  /** The field itself. `maxWords` is 0 when the prop is absent (0 is falsy in the source);
      `delivered` records, in order, the values the parent's `onChange` has observed. */
  class Textarea {
    const maxWords: nat
    const showWordCount: bool
    const hasOnChange: bool
    var value: string
    var wordCount: nat
    var delivered: seq<string>

    /** Every value the parent has been handed respects a non-zero cap. */
    ghost predicate Valid()
      reads this
    {
      maxWords != 0 ==> forall i :: 0 <= i < |delivered| ==> WordCount(delivered[i]) <= maxWords
    }

    constructor (maxWords: nat, showWordCount: bool, hasOnChange: bool, value: string)
      ensures Valid()
      ensures this.maxWords == maxWords && this.showWordCount == showWordCount
      ensures this.hasOnChange == hasOnChange && this.value == value
      ensures wordCount == 0 && delivered == []
    {
      this.maxWords := maxWords;
      this.showWordCount := showWordCount;
      this.hasOnChange := hasOnChange;
      this.value := value;
      wordCount := 0;
      delivered := [];
    }

    /** `handleChange`: cut the typed text when it is over the cap, store the count of the
        text as typed, then call the parent's `onChange` once, after the cut. */
    method HandleChange(typed: string)
      requires Valid()
      modifies this
      ensures Valid()
      ensures value == Truncate(typed, maxWords)
      ensures wordCount == WordCount(typed)
      ensures delivered == if hasOnChange then old(delivered) + [value] else old(delivered)
      ensures ReadoutFlagged() <==> maxWords != 0 && WordCount(typed) >= maxWords
    {
      value := typed;
      var words := WordCount(typed);
      if maxWords != 0 && words > maxWords {
        value := Truncate(typed, maxWords);
      }
      wordCount := WordCount(typed);
      if hasOnChange {
        delivered := delivered + [value];
      }
    }

    /** The readout is rendered when `showWordCount` or a cap is set, so a capped field
        always shows its count, and a red readout is never hidden. */
    function ReadoutShown(): (shown: bool)
      reads this
      ensures shown <==> showWordCount || maxWords != 0
      ensures maxWords != 0 ==> shown
      ensures ReadoutFlagged() ==> shown
    {
      showWordCount || maxWords != 0
    }

    /** The readout is shown in red once the stored count reaches a non-zero cap. */
    function ReadoutFlagged(): (flagged: bool)
      reads this
      ensures flagged ==> maxWords != 0
      ensures flagged <==> maxWords != 0 && wordCount >= maxWords
    {
      maxWords != 0 && wordCount >= maxWords
    }
  }
}
