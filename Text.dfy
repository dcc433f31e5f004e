/**
 * The Python string and list operations the generator relies on, restricted to ASCII:
 * `str.split()`, `str.split(sep)`, `str.join`, `str.capitalize`, `list.index` and the
 * prefix slice `s[0:end]` with a possibly negative `end`.
 */
module Text {

  /** Python's `str.isspace` on an ASCII character: space, tab, line feed, vertical tab,
      form feed, carriage return and the separators 0x1C to 0x1F. */
  predicate IsSpace(c: char) {
    c == ' ' || (9 <= c as int <= 13) || (28 <= c as int <= 31)
  }

  /** No character of `s` is whitespace. */
  predicate NoSpace(s: string) {
    forall i :: 0 <= i < |s| ==> !IsSpace(s[i])
  }

  /** A token of `str.split()`: non-empty and free of whitespace. */
  predicate IsWord(w: string) {
    w != [] && NoSpace(w)
  }

  /** The length of the run of non-whitespace characters that starts `s`. */
  function WordLength(s: string): (n: nat)
    ensures n <= |s| && NoSpace(s[..n])
    ensures n < |s| ==> IsSpace(s[n])
  {
    if s == [] || IsSpace(s[0]) then 0
    else
      var n := 1 + WordLength(s[1..]);
      assert s[..n] == [s[0]] + s[1..][..n - 1];
      n
  }

  /** Python's `str.split()` with no separator: the maximal runs of non-whitespace, in order. */
  function SplitWhitespace(s: string): (r: seq<string>)
    ensures forall i :: 0 <= i < |r| ==> IsWord(r[i])
    ensures r == [] <==> forall i :: 0 <= i < |s| ==> IsSpace(s[i])
    decreases |s|
  {
    if s == [] then []
    else if IsSpace(s[0]) then
      var r := SplitWhitespace(s[1..]);
      assert forall i :: 1 <= i < |s| ==> s[i] == s[1..][i - 1];
      r
    else
      var n := WordLength(s);
      [s[..n]] + SplitWhitespace(s[n..])
  }

  /** Python's `sep.join(items)`. */
  function Join(items: seq<string>, sep: string): string {
    if |items| == 0 then ""
    else if |items| == 1 then items[0]
    else items[0] + sep + Join(items[1..], sep)
  }

  /** Appending one item to a non-empty list appends the separator and the item. */
  lemma {:induction false} JoinAppend(items: seq<string>, x: string, sep: string)
    requires |items| > 0
    ensures Join(items + [x], sep) == Join(items, sep) + sep + x
  {
    if |items| > 1 {
      assert (items + [x])[1..] == items[1..] + [x];
      JoinAppend(items[1..], x, sep);
    } else {
      assert (items + [x])[1..] == [x];
    }
  }

  /** A word followed by whitespace (or by nothing) is as long as WordLength says. */
  lemma {:induction false} WordLengthOfWord(w: string, t: string)
    requires NoSpace(w)
    requires t == [] || IsSpace(t[0])
    ensures WordLength(w + t) == |w|
  {
    if w != [] {
      assert (w + t)[1..] == w[1..] + t;
      WordLengthOfWord(w[1..], t);
    } else {
      assert w + t == t;
    }
  }

  /** Tokenizing words joined by single spaces gives back the words: `str.split()` inverts
      `' '.join` on whitespace-free, non-empty tokens. */
  lemma {:induction false} SplitWhitespaceJoin(ws: seq<string>)
    requires forall i :: 0 <= i < |ws| ==> IsWord(ws[i])
    ensures SplitWhitespace(Join(ws, " ")) == ws
  {
    if |ws| == 1 {
      WordThenRest(ws[0], "");
      assert ws[0] + "" == ws[0];
    } else if |ws| > 1 {
      var rest := Join(ws[1..], " ");
      assert Join(ws, " ") == ws[0] + (" " + rest);
      WordThenRest(ws[0], " " + rest);
      SplitWhitespaceSkipsSpace(" ", rest);
      SplitWhitespaceJoin(ws[1..]);
      assert ws == [ws[0]] + ws[1..];
    }
  }

  /** Nothing but whitespace, possibly nothing at all. */
  predicate AllSpace(s: string) {
    forall i :: 0 <= i < |s| ==> IsSpace(s[i])
  }

  /** The words `ws` laid out with `gaps[i]` before the i-th word and `gaps[|ws|]` after the
      last one. */
  function Spaced(ws: seq<string>, gaps: seq<string>): string
    requires |gaps| == |ws| + 1
    decreases |ws|
  {
    if ws == [] then gaps[0] else gaps[0] + ws[0] + Spaced(ws[1..], gaps[1..])
  }

  /** Gaps `str.split()` reads as separators around `n` words: whitespace only, and every gap
      between two words non-empty; the gaps before the first and after the last may be empty. */
  predicate IsGaps(gaps: seq<string>, n: nat) {
    && |gaps| == n + 1
    && (forall i :: 0 <= i < |gaps| ==> AllSpace(gaps[i]))
    && (forall i :: 0 < i < n ==> gaps[i] != [])
  }

  /** Leading whitespace does not change the tokens. */
  lemma {:induction false} SplitWhitespaceSkipsSpace(g: string, t: string)
    requires AllSpace(g)
    ensures SplitWhitespace(g + t) == SplitWhitespace(t)
    decreases |g|
  {
    if g == [] {
      assert g + t == t;
    } else {
      assert (g + t)[0] == g[0];
      assert (g + t)[1..] == g[1..] + t;
      SplitWhitespaceSkipsSpace(g[1..], t);
    }
  }

  /** Putting a prefix in front of the first gap puts it in front of the whole text. */
  lemma SpacedWiderFirstGap(ws: seq<string>, gaps: seq<string>, c: string)
    requires |gaps| == |ws| + 1
    ensures Spaced(ws, [c + gaps[0]] + gaps[1..]) == c + Spaced(ws, gaps)
  {
    var h := [c + gaps[0]] + gaps[1..];
    assert h[0] == c + gaps[0] && h[1..] == gaps[1..];
    if ws != [] {
      assert Spaced(ws, h) == c + gaps[0] + ws[0] + Spaced(ws[1..], gaps[1..]);
    }
  }

  /** Every line is its tokens laid out with whitespace gaps: the tokens are the maximal runs of
      non-whitespace of the line, in order. */
  lemma {:induction false} SpacingOf(s: string) returns (gaps: seq<string>)
    ensures IsGaps(gaps, |SplitWhitespace(s)|) && Spaced(SplitWhitespace(s), gaps) == s
    decreases |s|
  {
    if s == [] {
      gaps := [""];
    } else if IsSpace(s[0]) {
      var g := SpacingOf(s[1..]);
      SpacingAfterSpace(s, g);
      gaps := [[s[0]] + g[0]] + g[1..];
    } else {
      var g := SpacingOf(s[WordLength(s)..]);
      SpacingAfterWord(s, g);
      gaps := [""] + g;
    }
  }

  /** A line starting with whitespace: that character joins the first gap of the rest. */
  lemma SpacingAfterSpace(s: string, g: seq<string>)
    requires s != [] && IsSpace(s[0])
    requires IsGaps(g, |SplitWhitespace(s[1..])|) && Spaced(SplitWhitespace(s[1..]), g) == s[1..]
    ensures var gaps := [[s[0]] + g[0]] + g[1..];
      IsGaps(gaps, |SplitWhitespace(s)|) && Spaced(SplitWhitespace(s), gaps) == s
  {
    var r := SplitWhitespace(s[1..]);
    assert SplitWhitespace(s) == r;
    WiderFirstGap(g, |r|, [s[0]]);
    SpacedWiderFirstGap(r, g, [s[0]]);
    assert s == [s[0]] + s[1..];
  }

  /** Widening the first gap with whitespace keeps the gaps valid. */
  lemma WiderFirstGap(g: seq<string>, n: nat, c: string)
    requires IsGaps(g, n) && AllSpace(c)
    ensures IsGaps([c + g[0]] + g[1..], n)
  {
    var gaps := [c + g[0]] + g[1..];
    assert forall i :: 0 < i < |gaps| ==> gaps[i] == g[i];
    assert forall i :: |c| <= i < |gaps[0]| ==> gaps[0][i] == g[0][i - |c|];
  }

  /** A line starting with a word: an empty first gap, then the word, then the rest laid out. */
  lemma SpacingAfterWord(s: string, g: seq<string>)
    requires s != [] && !IsSpace(s[0])
    requires var rest := SplitWhitespace(s[WordLength(s)..]);
      IsGaps(g, |rest|) && Spaced(rest, g) == s[WordLength(s)..]
    ensures var gaps := [""] + g;
      IsGaps(gaps, |SplitWhitespace(s)|) && Spaced(SplitWhitespace(s), gaps) == s
  {
    var n := WordLength(s);
    var rest := SplitWhitespace(s[n..]);
    WordFirst(s);
    if rest != [] {
      FirstGapOfWordStart(rest, g, s[n..]);
    }
    EmptyFirstGap(g, |rest|);
    SpacedAfterEmptyGap(s[..n], rest, g);
    assert s == s[..n] + s[n..];
  }

  /** A line starting with a word: its first token is that word. */
  lemma WordFirst(s: string)
    requires s != [] && !IsSpace(s[0])
    ensures SplitWhitespace(s) == [s[..WordLength(s)]] + SplitWhitespace(s[WordLength(s)..])
  {
  }

  /** A word after an empty gap is laid out first. */
  lemma SpacedAfterEmptyGap(w: string, ws: seq<string>, g: seq<string>)
    requires |g| == |ws| + 1
    ensures Spaced([w] + ws, [""] + g) == w + Spaced(ws, g)
  {
    assert ([w] + ws)[0] == w && ([w] + ws)[1..] == ws;
    assert ([""] + g)[0] == "" && ([""] + g)[1..] == g;
    assert "" + w == w;
  }

  /** An empty gap in front of valid gaps, whose first gap is non-empty when it now sits
      between two words, gives valid gaps for one more word. */
  lemma EmptyFirstGap(g: seq<string>, n: nat)
    requires IsGaps(g, n) && (n > 0 ==> g[0] != [])
    ensures IsGaps([""] + g, n + 1)
  {
    var gaps := [""] + g;
    assert forall i :: 0 < i < |gaps| ==> gaps[i] == g[i - 1];
  }

  /** Words laid out as a text that starts with whitespace have a non-empty first gap. */
  lemma FirstGapOfWordStart(ws: seq<string>, g: seq<string>, t: string)
    requires ws != [] && IsWord(ws[0]) && |g| == |ws| + 1
    requires Spaced(ws, g) == t && t != [] && IsSpace(t[0])
    ensures g[0] != []
  {
    assert t == g[0] + (ws[0] + Spaced(ws[1..], g[1..]));
    assert !IsSpace(ws[0][0]);
  }

  /** `str.split()` reads a line as its tokens separated by whitespace: for every line there are
      gaps that lay its tokens out as the line. */
  lemma SplitWhitespaceGaps(s: string)
    ensures exists gaps :: IsGaps(gaps, |SplitWhitespace(s)|) && Spaced(SplitWhitespace(s), gaps) == s
  {
    var gaps := SpacingOf(s);
  }

  /** Conversely, words laid out with any whitespace gaps, such as runs of spaces or tabs, or a
      trailing newline, split back into exactly those words. */
  lemma {:induction false} SplitWhitespaceSpaced(ws: seq<string>, gaps: seq<string>)
    requires forall i :: 0 <= i < |ws| ==> IsWord(ws[i])
    requires IsGaps(gaps, |ws|)
    ensures SplitWhitespace(Spaced(ws, gaps)) == ws
    decreases |ws|
  {
    if ws == [] {
      assert AllSpace(gaps[0]);
    } else {
      var rest := Spaced(ws[1..], gaps[1..]);
      assert forall i :: 0 <= i < |gaps[1..]| ==> gaps[1..][i] == gaps[i + 1];
      SplitWhitespaceSpaced(ws[1..], gaps[1..]);
      SpacedStartsWithGap(ws[1..], gaps[1..]);
      assert Spaced(ws, gaps) == gaps[0] + (ws[0] + rest);
      SplitWhitespaceSkipsSpace(gaps[0], ws[0] + rest);
      WordThenRest(ws[0], rest);
      assert ws == [ws[0]] + ws[1..];
    }
  }

  /** Laid-out words start with whitespace, unless there is nothing, or the first gap is empty. */
  lemma SpacedStartsWithGap(ws: seq<string>, gaps: seq<string>)
    requires |gaps| == |ws| + 1 && AllSpace(gaps[0]) && (ws != [] ==> gaps[0] != [])
    ensures Spaced(ws, gaps) == [] || IsSpace(Spaced(ws, gaps)[0])
  {
    if ws != [] {
      assert Spaced(ws, gaps) == gaps[0] + (ws[0] + Spaced(ws[1..], gaps[1..]));
    }
  }

  /** A word followed by nothing or by whitespace is the first token. */
  lemma WordThenRest(w: string, rest: string)
    requires IsWord(w) && (rest == [] || IsSpace(rest[0]))
    ensures SplitWhitespace(w + rest) == [w] + SplitWhitespace(rest)
  {
    WordLengthOfWord(w, rest);
    assert (w + rest)[0] == w[0];
    assert (w + rest)[..|w|] == w && (w + rest)[|w|..] == rest;
  }

  /** Python's `s.split(sep)` for a one-character separator: always at least one piece,
      empty pieces kept. */
  function Split(s: string, sep: char): (r: seq<string>)
    ensures |r| >= 1
    ensures forall i :: 0 <= i < |r| ==> sep !in r[i]
    ensures |r| == 1 <==> sep !in s
    decreases |s|
  {
    if s == [] then [""]
    else
      var rest := Split(s[1..], sep);
      assert sep in s <==> s[0] == sep || sep in s[1..] by {
        assert s == [s[0]] + s[1..];
      }
      if s[0] == sep then [""] + rest
      else
        var r := [[s[0]] + rest[0]] + rest[1..];
        assert forall i :: 1 <= i < |r| ==> r[i] == rest[i];
        r
  }

  /** Joining the pieces with the separator gives back the string. */
  lemma {:induction false} SplitJoin(s: string, sep: char)
    ensures Join(Split(s, sep), [sep]) == s
  {
    if s != [] {
      var rest := Split(s[1..], sep);
      SplitJoin(s[1..], sep);
      if s[0] == sep {
        assert ([""] + rest)[1..] == rest;
        assert s == [sep] + s[1..];
      } else if |rest| > 1 {
        var r := [[s[0]] + rest[0]] + rest[1..];
        assert r[1..] == rest[1..];
        assert s == [s[0]] + s[1..];
      } else {
        assert s == [s[0]] + s[1..];
      }
    }
  }

  /** A separator after a separator-free prefix ends the first piece. */
  lemma {:induction false} SplitAtSeparator(a: string, b: string, sep: char)
    requires sep !in a
    ensures Split(a + [sep] + b, sep) == [a] + Split(b, sep)
  {
    var s := a + [sep] + b;
    if a == [] {
      assert s == [sep] + b && s[1..] == b;
    } else {
      assert s[1..] == a[1..] + [sep] + b;
      SplitAtSeparator(a[1..], b, sep);
      assert a == [a[0]] + a[1..];
    }
  }

  /** Splitting separator-free pieces joined by the separator gives back the pieces:
      `s.split(c)` inverts `c.join`. */
  lemma {:induction false} JoinSplit(xs: seq<string>, sep: char)
    requires |xs| >= 1
    requires forall i :: 0 <= i < |xs| ==> sep !in xs[i]
    ensures Split(Join(xs, [sep]), sep) == xs
  {
    if |xs| == 1 {
      var r := Split(xs[0], sep);
      SplitJoin(xs[0], sep);
    } else {
      SplitAtSeparator(xs[0], Join(xs[1..], [sep]), sep);
      JoinSplit(xs[1..], sep);
      assert xs == [xs[0]] + xs[1..];
    }
  }

  /** Two separator-free pieces joined by one separator split back into those two pieces. */
  lemma SplitPair(a: string, b: string, sep: char)
    requires sep !in a && sep !in b
    ensures Split(a + [sep] + b, sep) == [a, b]
  {
    SplitAtSeparator(a, b, sep);
    SplitJoin(b, sep);
  }

  function ToUpper(c: char): char {
    if 'a' <= c <= 'z' then (c as int - 32) as char else c
  }

  function ToLower(c: char): char {
    if 'A' <= c <= 'Z' then (c as int + 32) as char else c
  }

  /** Python's `str.lower` on ASCII. */
  function Lower(s: string): (r: string)
    ensures |r| == |s|
  {
    seq(|s|, i requires 0 <= i < |s| => ToLower(s[i]))
  }

  /** Python's `str.capitalize` on ASCII: the first character upper-cased and every other
      character lower-cased (so "firstVariable" becomes "Firstvariable"). */
  function Capitalize(s: string): (r: string)
    ensures |r| == |s|
    ensures |s| > 0 ==> r[0] == ToUpper(s[0])
    ensures forall i :: 0 < i < |s| ==> r[i] == ToLower(s[i])
  {
    if s == [] then [] else [ToUpper(s[0])] + Lower(s[1..])
  }

  /** Python's `s[0:end]`: a negative `end` counts from the back, and the bound is clamped. */
  function PrefixTo(s: string, end: int): (r: string)
    ensures r <= s
    ensures 0 <= end <= |s| ==> |r| == end
    ensures -|s| <= end < 0 ==> |r| == |s| + end
    ensures end < -|s| ==> r == []
    ensures end > |s| ==> r == s
  {
    var e := if end < 0 then end + |s| else end;
    if e <= 0 then [] else if e >= |s| then s else s[..e]
  }

  /** Python's `list.index(x)`: the position of the FIRST occurrence of `x`. */
  function FirstIndex<T(==)>(s: seq<T>, x: T): (i: nat)
    requires x in s
    ensures i < |s| && s[i] == x
    ensures forall j :: 0 <= j < i ==> s[j] != x
  {
    if s[0] == x then 0 else 1 + FirstIndex(s[1..], x)
  }

  /** No element occurs twice. */
  predicate Distinct<T(==)>(s: seq<T>) {
    forall i, j :: 0 <= i < j < |s| ==> s[i] != s[j]
  }

  predicate EndsWith(s: string, suffix: string) {
    |suffix| <= |s| && s[|s| - |suffix|..] == suffix
  }

  /** `sub` occurs in `s` starting at position `i`. */
  predicate OccursAt(s: string, sub: string, i: int) {
    0 <= i <= |s| - |sub| && s[i..i + |sub|] == sub
  }

  /** `sub` occurs somewhere in `s`. */
  predicate Contains(s: string, sub: string) {
    exists i | 0 <= i <= |s| - |sub| :: OccursAt(s, sub, i)
  }
}
