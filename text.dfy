/**
 * Character classes and the string helpers of Python's `str` that the
 * proper-noun filter uses: `split()`, `strip()` and `" ".join`.
 * Character classes are the ASCII part of Python's Unicode classes.
 */
module Text {

  /** Whitespace as `str.isspace`, `str.split()`, `str.strip()` and the regex class `\s` see it (ASCII part). */
  predicate IsSpace(c: char) {
    var n := c as int;
    (9 <= n <= 13) || (28 <= n <= 32)
  }

  predicate IsUpper(c: char) { 'A' <= c <= 'Z' }

  predicate IsLower(c: char) { 'a' <= c <= 'z' }

  predicate IsDigit(c: char) { '0' <= c <= '9' }

  /** The regex class `\w`: letters, digits and the underscore. */
  predicate IsWordChar(c: char) { IsUpper(c) || IsLower(c) || IsDigit(c) || c == '_' }

  function ToLowerChar(c: char): (r: char)
    ensures !IsUpper(r)
    ensures IsUpper(c) ==> IsLower(r)
    ensures !IsUpper(c) ==> r == c
  {
    if IsUpper(c) then (c as int + 32) as char else c
  }

  /** `s.lower()`. */
  function ToLower(s: string): (r: string)
    ensures |r| == |s|
  {
    if s == [] then [] else [ToLowerChar(s[0])] + ToLower(s[1..])
  }

  /** `re.sub(r"[^\w]", "", s)`: the word characters of `s`, in order. */
  function WordChars(s: string): (r: string)
    ensures |r| <= |s|
  {
    if s == [] then []
    else if IsWordChar(s[0]) then [s[0]] + WordChars(s[1..])
    else WordChars(s[1..])
  }

  predicate NoSpace(s: string) {
    forall i :: 0 <= i < |s| ==> !IsSpace(s[i])
  }

  predicate AllSpace(s: string) {
    forall i :: 0 <= i < |s| ==> IsSpace(s[i])
  }

  /** `s.lstrip()`. */
  function DropSpaces(s: string): (r: string)
    ensures |r| <= |s|
    ensures s != [] && IsSpace(s[0]) ==> |r| < |s|
  {
    if s != [] && IsSpace(s[0]) then DropSpaces(s[1..]) else s
  }

  /** `s.rstrip()`. */
  function DropTrailingSpaces(s: string): (r: string)
    ensures |r| <= |s|
  {
    if s != [] && IsSpace(s[|s| - 1]) then DropTrailingSpaces(s[..|s| - 1]) else s
  }

  /** `lstrip()` removes a whitespace prefix and stops at the first other character. */
  lemma {:induction false} DropSpacesShape(s: string)
    ensures DropSpaces(s) == s[|s| - |DropSpaces(s)|..]
    ensures AllSpace(s[..|s| - |DropSpaces(s)|])
    ensures DropSpaces(s) == [] || !IsSpace(DropSpaces(s)[0])
  {
    if s != [] && IsSpace(s[0]) {
      var t := s[1..];
      DropSpacesShape(t);
      var n := |s| - |DropSpaces(s)|;
      assert t[|t| - |DropSpaces(t)|..] == s[n..];
      assert forall i :: 0 < i < n ==> s[..n][i] == t[..n - 1][i - 1];
    } else {
      assert s[..0] == [];
    }
  }

  /** `rstrip()` removes a whitespace suffix and stops at the last other character. */
  lemma {:induction false} DropTrailingSpacesShape(s: string)
    ensures DropTrailingSpaces(s) == s[..|DropTrailingSpaces(s)|]
    ensures AllSpace(s[|DropTrailingSpaces(s)|..])
    ensures DropTrailingSpaces(s) == [] || !IsSpace(DropTrailingSpaces(s)[|DropTrailingSpaces(s)| - 1])
  {
    if s != [] && IsSpace(s[|s| - 1]) {
      var t := s[..|s| - 1];
      DropTrailingSpacesShape(t);
      var n := |DropTrailingSpaces(s)|;
      assert t[..n] == s[..n];
      assert forall i :: 0 <= i < |s| - 1 - n ==> s[n..][i] == t[n..][i];
      assert s[n..][|s| - 1 - n] == s[|s| - 1];
    } else {
      assert s[|s|..] == [];
    }
  }

  /** `s.strip()`. */
  function Strip(s: string): string {
    DropTrailingSpaces(DropSpaces(s))
  }

  /** The longest prefix of `s` without whitespace. */
  function TakeWord(s: string): (r: string)
    ensures |r| <= |s| && r == s[..|r|]
    ensures NoSpace(r)
    ensures |r| == |s| || IsSpace(s[|r|])
  {
    if s == [] || IsSpace(s[0]) then [] else [s[0]] + TakeWord(s[1..])
  }

  /** `s.split()`: the maximal runs of non-whitespace characters, in order. */
  function Words(s: string): seq<string>
    decreases |s|
  {
    if s == [] then []
    else if IsSpace(s[0]) then Words(s[1..])
    else
      var w := TakeWord(s);
      [w] + Words(s[|w|..])
  }

  /** `" ".join(ws)`. */
  function JoinSpace(ws: seq<string>): string {
    if ws == [] then ""
    else if |ws| == 1 then ws[0]
    else ws[0] + " " + JoinSpace(ws[1..])
  }

  /** A word of a whitespace split: non-empty, no whitespace inside. */
  predicate IsWord(w: string) {
    w != [] && NoSpace(w)
  }

  /** `strip()` leaves nothing exactly when the text is whitespace only; otherwise it has no whitespace at either end. */
  lemma StripShape(s: string)
    ensures Strip(s) == [] <==> AllSpace(s)
    ensures Strip(s) != [] ==> !IsSpace(Strip(s)[0]) && !IsSpace(Strip(s)[|Strip(s)| - 1])
  {
    var t := DropSpaces(s);
    var u := DropTrailingSpaces(t);
    DropSpacesShape(s);
    DropTrailingSpacesShape(t);
    if t == [] {
      assert s[..|s|] == s;
    } else {
      assert t[0..][0] == t[0];
      assert |u| > 0;
      assert u[0] == t[0];
      assert s[|s| - |t|] == t[0];
    }
  }

  /** Every word of a split is a non-empty run without whitespace. */
  lemma {:induction false} WordsAreWords(s: string)
    ensures forall i :: 0 <= i < |Words(s)| ==> IsWord(Words(s)[i])
    decreases |s|
  {
    if s == [] {
    } else if IsSpace(s[0]) {
      WordsAreWords(s[1..]);
    } else {
      WordsAreWords(s[|TakeWord(s)|..]);
    }
  }

  /** A text that starts with a non-whitespace character has `TakeWord` as its first word. */
  lemma FirstWord(s: string)
    requires s != [] && !IsSpace(s[0])
    ensures Words(s) != [] && Words(s)[0] == TakeWord(s)
  {
  }

  /** Splitting words joined by single spaces gives the words back. */
  lemma {:induction false} WordsOfJoin(ws: seq<string>)
    requires forall i :: 0 <= i < |ws| ==> IsWord(ws[i])
    ensures Words(JoinSpace(ws)) == ws
  {
    if ws == [] {
    } else if |ws| == 1 {
      WordsCons(ws[0], "");
      assert ws[0] + " " + "" == ws[0] + " ";
      assert Words(ws[0] + " ") == Words(ws[0]) by { WordsTrailingSpace(ws[0]); }
    } else {
      assert IsWord(ws[1]);
      WordsOfJoin(ws[1..]);
      JoinStartsWithWord(ws[1..]);
      WordsCons(ws[0], JoinSpace(ws[1..]));
    }
  }

  /** A word, one space and a text that does not start with whitespace split as that word and the text's words. */
  lemma WordsCons(w: string, rest: string)
    requires IsWord(w)
    requires rest == [] || !IsSpace(rest[0])
    ensures Words(w + " " + rest) == [w] + Words(rest)
  {
    var s := w + " " + rest;
    var tail := " " + rest;
    assert s == w + tail;
    assert TakeWord(s) == w by {
      TakeWordOfWord(w, tail);
    }
    assert s[|w|..] == tail;
    assert Words(tail) == Words(rest) by {
      assert tail[0] == ' ' && tail[1..] == rest;
    }
    assert Words(s) == [w] + Words(s[|w|..]) by {
      assert s[0] == w[0];
    }
  }

  lemma WordsTrailingSpace(w: string)
    requires IsWord(w)
    ensures Words(w + " ") == Words(w)
  {
    var s := w + " ";
    assert s[0] == w[0];
    TakeWordOfWord(w, " ");
    TakeWordOfWord(w, "");
    assert w + "" == w;
    assert s[|w|..] == " ";
    assert w[|w|..] == [];
    assert " "[1..] == [];
  }

  lemma {:induction false} TakeWordOfWord(w: string, tail: string)
    requires NoSpace(w)
    requires tail == [] || IsSpace(tail[0])
    ensures TakeWord(w + tail) == w
  {
    if w != [] {
      assert (w + tail)[0] == w[0];
      assert (w + tail)[1..] == w[1..] + tail;
      TakeWordOfWord(w[1..], tail);
    } else {
      assert w + tail == tail;
    }
  }

  /** Every string of `ws` is a word. */
  predicate AreWords(ws: seq<string>) {
    forall i :: 0 <= i < |ws| ==> IsWord(ws[i])
  }

  /** The words of each string of `ss` in turn. */
  function WordsOfAll(ss: seq<string>): seq<string> {
    if ss == [] then [] else Words(ss[0]) + WordsOfAll(ss[1..])
  }

  lemma {:induction false} WordsOfAllAppend(a: seq<string>, b: seq<string>)
    ensures WordsOfAll(a + b) == WordsOfAll(a) + WordsOfAll(b)
  {
    if a == [] {
      assert a + b == b;
    } else {
      assert (a + b)[0] == a[0] && (a + b)[1..] == a[1..] + b;
      WordsOfAllAppend(a[1..], b);
    }
  }

  /** The first word does not reach past whitespace that follows it. */
  lemma {:induction false} TakeWordBeforeSpace(a: string, t: string)
    requires t == [] || IsSpace(t[0])
    ensures TakeWord(a + t) == TakeWord(a)
  {
    if a == [] {
      assert a + t == t;
    } else {
      assert (a + t)[0] == a[0];
      if !IsSpace(a[0]) {
        assert (a + t)[1..] == a[1..] + t;
        TakeWordBeforeSpace(a[1..], t);
      }
    }
  }

  /** Whitespace separates words: a text followed by whitespace and more text splits as the two parts' words in turn. */
  lemma {:induction false} WordsSplitAtSpace(a: string, t: string)
    requires t != [] && IsSpace(t[0])
    ensures Words(a + t) == Words(a) + Words(t)
    decreases |a|
  {
    var s := a + t;
    if a == [] {
      assert s == t;
    } else if IsSpace(a[0]) {
      assert s[1..] == a[1..] + t;
      WordsSplitAtSpace(a[1..], t);
      assert Words(s) == Words(s[1..]) by {
        assert s[0] == a[0];
      }
    } else {
      var w := TakeWord(a);
      assert TakeWord(s) == w by {
        TakeWordBeforeSpace(a, t);
      }
      assert s[|w|..] == a[|w|..] + t;
      WordsSplitAtSpace(a[|w|..], t);
      assert Words(s) == [w] + Words(s[|w|..]) by {
        assert s[0] == a[0];
      }
    }
  }

  /** `lstrip()` keeps the words. */
  lemma {:induction false} WordsDropSpaces(s: string)
    ensures Words(DropSpaces(s)) == Words(s)
  {
    if s != [] && IsSpace(s[0]) {
      WordsDropSpaces(s[1..]);
    }
  }

  /** `rstrip()` keeps the words. */
  lemma {:induction false} WordsDropTrailingSpaces(s: string)
    ensures Words(DropTrailingSpaces(s)) == Words(s)
    decreases |s|
  {
    if s != [] && IsSpace(s[|s| - 1]) {
      var t := s[..|s| - 1];
      var c := [s[|s| - 1]];
      WordsDropTrailingSpaces(t);
      assert s == t + c;
      WordsSplitAtSpace(t, c);
      assert Words(c) == Words(c[1..]);
    }
  }

  /** `strip()` keeps the words. */
  lemma WordsOfStrip(s: string)
    ensures Words(Strip(s)) == Words(s)
  {
    WordsDropSpaces(s);
    WordsDropTrailingSpaces(DropSpaces(s));
  }

  /** Splitting strings joined by single spaces gives their words in turn, whatever the strings are. */
  lemma {:induction false} WordsOfJoinAll(xs: seq<string>)
    ensures Words(JoinSpace(xs)) == WordsOfAll(xs)
  {
    if xs == [] {
    } else if |xs| == 1 {
      assert xs[1..] == [];
      assert WordsOfAll(xs) == Words(xs[0]) + WordsOfAll([]);
    } else {
      WordsOfJoinAll(xs[1..]);
      var rest := JoinSpace(xs[1..]);
      var tail := " " + rest;
      assert xs[0] + " " + rest == xs[0] + tail;
      WordsSplitAtSpace(xs[0], tail);
      assert Words(tail) == Words(rest) by {
        assert tail[0] == ' ' && tail[1..] == rest;
      }
    }
  }

  lemma JoinStartsWithWord(ws: seq<string>)
    requires ws != [] && ws[0] != []
    ensures JoinSpace(ws) != [] && JoinSpace(ws)[0] == ws[0][0]
  {
  }
}
