/**
 * The capitalisation heuristic of the proper-noun filter: text is split
 * into sentences, each sentence into words, and a capitalised word that is
 * not sentence-initial, not a common word, not numeric and not an acronym
 * is removed or replaced by `[NAME]`.
 */
module ProperNounFilter {
  import opened Text
  import opened Wrappers
  import opened Selection

  /** How proper nouns are handled: the strategies "remove", "mask" and "none". */
  datatype Strategy = Remove | Mask | NoFiltering

  /** The placeholder that strategy "mask" puts in place of a proper noun. */
  const MaskToken: string := "[NAME]"

  /** Words that may appear capitalised without being proper nouns (only membership matters). */
  const CommonWords: seq<string> := [
    // English
    "the", "a", "an", "in", "on", "at", "to", "for", "of", "with",
    "is", "are", "was", "were", "be", "been", "being", "have", "has",
    "had", "do", "does", "did", "will", "would", "could", "should",
    "may", "might", "must", "shall", "can", "need", "dare", "ought",
    "used", "i", "you", "he", "she", "it", "we", "they", "what",
    "which", "who", "whom", "this", "that", "these", "those", "am",
    "and", "or", "but", "if", "then", "else", "when", "where", "why",
    "how", "all", "each", "every", "both", "few", "more", "most",
    "other", "some", "such", "no", "nor", "not", "only", "own", "same",
    "so", "than", "too", "very", "just", "also", "now", "here", "there",
    // German, French, Spanish, Italian
    "der", "die", "das", "und", "oder",
    "le", "la", "les", "et", "ou",
    "el", "los", "las", "y", "o",
    "il", "lo", "gli", "e"
  ]

  // ---------------------------------------------------------------------
  // The per-word rule

  /** `word[0].isupper()` on a non-empty word. */
  predicate IsCapitalized(word: string) {
    word != [] && IsUpper(word[0])
  }

  /** The word with its non-word characters removed, lower-cased, is a common word. */
  predicate IsCommon(word: string) {
    ToLower(WordChars(word)) in CommonWords
  }

  /** `any(c.isdigit() for c in word)`. */
  predicate HasDigit(word: string) {
    word != [] && (IsDigit(word[0]) || HasDigit(word[1..]))
  }

  /** `word.isupper()`: some cased character and no lower-case one. */
  predicate IsUpperString(word: string) {
    HasUpper(word) && !HasLower(word)
  }

  predicate HasUpper(word: string) {
    word != [] && (IsUpper(word[0]) || HasUpper(word[1..]))
  }

  predicate HasLower(word: string) {
    word != [] && (IsLower(word[0]) || HasLower(word[1..]))
  }

  /** An acronym: `word.isupper()` and longer than one character. */
  predicate IsAllCaps(word: string) {
    IsUpperString(word) && |word| > 1
  }

  /** The word at position `i` of its sentence is taken for a proper noun and is removed or masked. */
  predicate IsDropped(word: string, i: nat) {
    IsCapitalized(word) && i != 0 && !IsCommon(word) && !HasDigit(word) && !IsAllCaps(word)
  }

  /** What the word at position `i` contributes to the filtered sentence. */
  function Emit(word: string, i: nat, strategy: Strategy): seq<string> {
    if !IsDropped(word, i) then [word]
    else if strategy == Mask then [MaskToken]
    else []
  }

  /** The filtered words contributed by the first `k` words of a sentence. */
  function FilterWordsUpTo(ws: seq<string>, k: nat, strategy: Strategy): seq<string>
    requires k <= |ws|
  {
    if k == 0 then [] else FilterWordsUpTo(ws, k - 1, strategy) + Emit(ws[k - 1], k - 1, strategy)
  }

  /** The filtered words of a sentence whose words are `ws`. */
  function FilterWords(ws: seq<string>, strategy: Strategy): seq<string> {
    FilterWordsUpTo(ws, |ws|, strategy)
  }

  // ---------------------------------------------------------------------
  // Sentences

  predicate IsSentenceEnd(c: char) {
    c == '.' || c == '!' || c == '?'
  }

  /**
   * `re.split(r"(?<=[.!?])\s+", cur + t)` where `cur` is the piece read so
   * far: a run of whitespace right after `.`, `!` or `?` ends a piece and is
   * consumed whole.
   */
  function Pieces(t: string, cur: string): seq<string>
    decreases |t|
  {
    if t == [] then [cur]
    else if IsSpace(t[0]) && cur != [] && IsSentenceEnd(cur[|cur| - 1]) then [cur] + Pieces(DropSpaces(t), [])
    else Pieces(t[1..], cur + [t[0]])
  }

  /** `[s.strip() for s in ps]`. */
  function StripEach(ps: seq<string>): (r: seq<string>)
    ensures |r| == |ps| && forall i :: 0 <= i < |ps| ==> r[i] == Strip(ps[i])
  {
    if ps == [] then [] else [Strip(ps[0])] + StripEach(ps[1..])
  }

  /** `[t for t in ts if t]`. */
  function NonEmpty(ts: seq<string>): seq<string> {
    if ts == [] then []
    else (if ts[0] != [] then [ts[0]] else []) + NonEmpty(ts[1..])
  }

  /** `[s.strip() for s in ps if s.strip()]`. */
  function NonEmptyStripped(ps: seq<string>): seq<string> {
    NonEmpty(StripEach(ps))
  }

  /** `_split_sentences`. */
  function SplitSentences(text: string): seq<string> {
    NonEmptyStripped(Pieces(text, []))
  }

  /** The filtered words of each sentence, in order. */
  function SentenceWordLists(ss: seq<string>, strategy: Strategy): seq<seq<string>> {
    if ss == [] then [] else [FilterWords(Words(ss[0]), strategy)] + SentenceWordLists(ss[1..], strategy)
  }

  lemma {:induction false} SentenceWordListsShape(ss: seq<string>, strategy: Strategy)
    ensures |SentenceWordLists(ss, strategy)| == |ss|
    ensures forall j :: 0 <= j < |ss| ==> SentenceWordLists(ss, strategy)[j] == FilterWords(Words(ss[j]), strategy)
  {
    if ss != [] {
      SentenceWordListsShape(ss[1..], strategy);
      var rest := SentenceWordLists(ss[1..], strategy);
      var all := SentenceWordLists(ss, strategy);
      forall j | 0 <= j < |ss|
        ensures all[j] == FilterWords(Words(ss[j]), strategy)
      {
        if j > 0 {
          assert all[j] == rest[j - 1] && ss[j] == ss[1..][j - 1];
        }
      }
    }
  }

  /** The sentences that the first `k` word lists give: each non-empty list joined by spaces, empty lists dropped. */
  function JoinNonEmptyUpTo(fws: seq<seq<string>>, k: nat): seq<string>
    requires k <= |fws|
  {
    if k == 0 then []
    else JoinNonEmptyUpTo(fws, k - 1) + (if fws[k - 1] != [] then [JoinSpace(fws[k - 1])] else [])
  }

  /** The filtered sentences; a sentence left without words is dropped. */
  function FilteredSentences(ss: seq<string>, strategy: Strategy): seq<string> {
    var fws := SentenceWordLists(ss, strategy);
    JoinNonEmptyUpTo(fws, |fws|)
  }

  /** What `_filter_with_heuristics` returns for `text`. */
  function HeuristicFilter(strategy: Strategy, text: string): string {
    JoinSpace(FilteredSentences(SplitSentences(text), strategy))
  }

  // ---------------------------------------------------------------------
  // The filter itself

  /** `_filter_with_heuristics`: split into sentences, filter each, join the non-empty results with spaces. */
  method FilterWithHeuristics(strategy: Strategy, text: string) returns (r: string)
    ensures r == HeuristicFilter(strategy, text)
  {
    var sentences := SplitSentences(text);
    var filteredSentences := FilterSentences(strategy, sentences);
    r := JoinSpace(filteredSentences);
  }

  /** The outer loop of `_filter_with_heuristics`: filter each sentence and keep those left with words. */
  method FilterSentences(strategy: Strategy, sentences: seq<string>) returns (filteredSentences: seq<string>)
    ensures filteredSentences == FilteredSentences(sentences, strategy)
  {
    ghost var wordLists := SentenceWordLists(sentences, strategy);
    assert |wordLists| == |sentences| by {
      SentenceWordListsShape(sentences, strategy);
    }
    filteredSentences := [];
    var j := 0;
    while j < |sentences|
      invariant 0 <= j <= |sentences|
      invariant filteredSentences == JoinNonEmptyUpTo(wordLists, j)
    {
      var words := Words(sentences[j]);
      var filteredWords := FilterSentenceWords(strategy, words);
      assert filteredWords == wordLists[j] by {
        SentenceWordListsShape(sentences, strategy);
      }
      filteredSentences := AppendSentence(filteredSentences, filteredWords);
      j := j + 1;
    }
  }

  /** The tail of the outer loop's body: a sentence that kept some words is appended, joined by spaces. */
  method AppendSentence(filteredSentences: seq<string>, filteredWords: seq<string>) returns (r: seq<string>)
    ensures r == filteredSentences + (if filteredWords != [] then [JoinSpace(filteredWords)] else [])
  {
    r := filteredSentences;
    if filteredWords != [] {
      r := r + [JoinSpace(filteredWords)];
    }
  }

  /** The inner loop of `_filter_with_heuristics`: the keep, mask or drop decision for each word of one sentence. */
  method FilterSentenceWords(strategy: Strategy, words: seq<string>) returns (filteredWords: seq<string>)
    ensures filteredWords == FilterWords(words, strategy)
  {
    filteredWords := [];
    var i := 0;
    while i < |words|
      invariant 0 <= i <= |words|
      invariant filteredWords == FilterWordsUpTo(words, i, strategy)
    {
      var word := words[i];
      var isFirstWord := i == 0;
      var isCapitalized := IsCapitalized(word);
      var isCommon := IsCommon(word);
      var isAllCaps := IsAllCaps(word);
      var isNumeric := HasDigit(word);
      if !isCapitalized || isFirstWord || isCommon || isNumeric {
        filteredWords := filteredWords + [word];
      } else if isAllCaps {
        filteredWords := filteredWords + [word];
      } else if strategy == Mask {
        filteredWords := filteredWords + [MaskToken];
      }
      i := i + 1;
    }
  }

  /** `ProperNounFilter.filter` without NLTK: strategy "none" returns the text as it is. */
  method Filter(strategy: Strategy, text: string) returns (r: string)
    ensures strategy == NoFiltering ==> r == text
    ensures strategy != NoFiltering ==> r == HeuristicFilter(strategy, text)
  {
    if strategy == NoFiltering {
      return text;
    }
    r := FilterWithHeuristics(strategy, text);
  }

  // ---------------------------------------------------------------------
  // Properties of the word rule

  /** The first word of a sentence is always kept as it is. */
  lemma {:induction false} FirstWordKept(ws: seq<string>, strategy: Strategy, k: nat)
    requires 0 < k <= |ws|
    ensures FilterWordsUpTo(ws, k, strategy) != []
    ensures FilterWordsUpTo(ws, k, strategy)[0] == ws[0]
  {
    if k > 1 {
      FirstWordKept(ws, strategy, k - 1);
    }
  }

  /** Strategy "mask" keeps the word count and replaces exactly the dropped words by `[NAME]`. */
  lemma {:induction false} MaskKeepsPositions(ws: seq<string>, k: nat)
    requires k <= |ws|
    ensures |FilterWordsUpTo(ws, k, Mask)| == k
    ensures forall i :: 0 <= i < k ==>
      FilterWordsUpTo(ws, k, Mask)[i] == if IsDropped(ws[i], i) then MaskToken else ws[i]
  {
    if k > 0 {
      MaskKeepsPositions(ws, k - 1);
      var prev := FilterWordsUpTo(ws, k - 1, Mask);
      var cur := FilterWordsUpTo(ws, k, Mask);
      assert cur == prev + [if IsDropped(ws[k - 1], k - 1) then MaskToken else ws[k - 1]];
      forall i | 0 <= i < k
        ensures cur[i] == if IsDropped(ws[i], i) then MaskToken else ws[i]
      {
        if i < k - 1 {
          assert cur[i] == prev[i];
        }
      }
    }
  }

  /** The positions of the words that the first `k` words keep, in increasing order. */
  function KeptPositions(ws: seq<string>, k: nat): (idx: seq<nat>)
    requires k <= |ws|
    ensures forall j :: 0 <= j < |idx| ==> idx[j] < k
    ensures forall j, l :: 0 <= j < l < |idx| ==> idx[j] < idx[l]
    ensures forall i :: 0 <= i < k ==> (i in idx <==> !IsDropped(ws[i], i))
  {
    if k == 0 then []
    else KeptPositions(ws, k - 1) + (if !IsDropped(ws[k - 1], k - 1) then [k - 1] else [])
  }

  /**
   * Strategy "remove" returns an order-preserving subsequence of the words
   * that holds exactly the words that are not dropped.
   */
  lemma {:induction false} RemoveSelectsKept(ws: seq<string>, k: nat)
    requires k <= |ws|
    ensures SelectsAt(FilterWordsUpTo(ws, k, Remove), ws, KeptPositions(ws, k))
  {
    if k > 0 {
      RemoveSelectsKept(ws, k - 1);
      var out := FilterWordsUpTo(ws, k - 1, Remove);
      var idx := KeptPositions(ws, k - 1);
      if !IsDropped(ws[k - 1], k - 1) {
        assert FilterWordsUpTo(ws, k, Remove) == out + [ws[k - 1]];
        assert KeptPositions(ws, k) == idx + [k - 1];
        SelectsAtSnoc(out, ws, idx, k - 1);
      } else {
        assert FilterWordsUpTo(ws, k, Remove) == out;
        assert KeptPositions(ws, k) == idx;
      }
    }
  }

  /** The filter never invents a word: every output word is an input word or `[NAME]`. */
  lemma {:induction false} FilteredWordsFromInput(ws: seq<string>, strategy: Strategy, k: nat)
    requires k <= |ws|
    ensures forall j :: 0 <= j < |FilterWordsUpTo(ws, k, strategy)| ==>
      FilterWordsUpTo(ws, k, strategy)[j] in ws || FilterWordsUpTo(ws, k, strategy)[j] == MaskToken
  {
    if k > 0 {
      FilteredWordsFromInput(ws, strategy, k - 1);
    }
  }

  // ---------------------------------------------------------------------
  // Properties of sentence splitting and of the whole filter

  /** Non-empty, with no whitespace at either end. */
  predicate IsStripped(s: string) {
    s != [] && !IsSpace(s[0]) && !IsSpace(s[|s| - 1])
  }

  /** A piece that does not strip to nothing strips to a stripped sentence. */
  lemma StrippedPiece(p: string)
    ensures Strip(p) != [] ==> IsStripped(Strip(p))
  {
    StripShape(p);
  }

  /** Dropping the empty strings keeps only non-empty elements of the input. */
  lemma {:induction false} NonEmptyFrom(ts: seq<string>)
    ensures forall j :: 0 <= j < |NonEmpty(ts)| ==> NonEmpty(ts)[j] != [] && NonEmpty(ts)[j] in ts
  {
    if ts != [] {
      NonEmptyFrom(ts[1..]);
      var rest := NonEmpty(ts[1..]);
      var all := NonEmpty(ts);
      var n := if ts[0] != [] then 1 else 0;
      assert all == (if ts[0] != [] then [ts[0]] else []) + rest;
      forall j | 0 <= j < |all|
        ensures all[j] != [] && all[j] in ts
      {
        if j < n {
          assert all[j] == ts[0];
        } else {
          assert all[j] == rest[j - n];
          assert rest[j - n] in ts[1..];
        }
      }
    }
  }

  /** Every sentence is non-empty and has no whitespace at either end. */
  lemma SentencesAreStripped(text: string)
    ensures forall j :: 0 <= j < |SplitSentences(text)| ==> IsStripped(SplitSentences(text)[j])
  {
    var ps := Pieces(text, []);
    var ts := StripEach(ps);
    var ss := SplitSentences(text);
    NonEmptyFrom(ts);
    forall j | 0 <= j < |ss|
      ensures IsStripped(ss[j])
    {
      assert ss[j] != [] && ss[j] in ts;
      var i :| 0 <= i < |ts| && ts[i] == ss[j];
      StrippedPiece(ps[i]);
    }
  }

  lemma {:induction false} BlankPieces(t: string, cur: string)
    requires AllSpace(t) && AllSpace(cur)
    ensures Pieces(t, cur) == [cur + t]
    decreases |t|
  {
    if t == [] {
      assert cur + t == cur;
    } else {
      assert cur != [] ==> IsSpace(cur[|cur| - 1]);
      BlankPieces(t[1..], cur + [t[0]]);
      assert cur + [t[0]] + t[1..] == cur + t;
    }
  }

  /** Empty or whitespace-only text has no sentences, so the heuristic filter returns "". */
  lemma BlankTextFiltersToEmpty(strategy: Strategy, text: string)
    requires AllSpace(text)
    ensures SplitSentences(text) == []
    ensures HeuristicFilter(strategy, text) == ""
  {
    BlankPieces(text, []);
    assert [] + text == text;
    StripShape(text);
    assert StripEach([text]) == [[]];
    assert NonEmpty([[]]) == [];
  }

  lemma FilteredWordsAreWords(ws: seq<string>, strategy: Strategy, k: nat)
    requires k <= |ws|
    requires forall i :: 0 <= i < |ws| ==> IsWord(ws[i])
    ensures forall j :: 0 <= j < |FilterWordsUpTo(ws, k, strategy)| ==> IsWord(FilterWordsUpTo(ws, k, strategy)[j])
  {
    FilteredWordsFromInput(ws, strategy, k);
    assert IsWord(MaskToken);
  }

  /**
   * Output sentence `out` comes from input sentence `s`: it splits back into
   * the filtered words of `s` and starts with the first word of `s`.
   */
  predicate SentenceKept(s: string, out: string, strategy: Strategy) {
    && Words(s) != []
    && Words(out) == FilterWords(Words(s), strategy)
    && Words(out) != []
    && Words(out)[0] == Words(s)[0]
  }

  /** A stripped sentence keeps at least its first word. */
  lemma SentenceNeverEmpty(s: string, strategy: Strategy)
    requires IsStripped(s)
    ensures Words(s) != []
    ensures FilterWords(Words(s), strategy) != []
    ensures FilterWords(Words(s), strategy)[0] == Words(s)[0]
  {
    FirstWord(s);
    FirstWordKept(Words(s), strategy, |Words(s)|);
  }

  /** The output sentence of a stripped sentence splits back into its filtered words and starts with its first word. */
  lemma OneSentenceKept(s: string, strategy: Strategy)
    requires IsStripped(s)
    ensures SentenceKept(s, JoinSpace(FilterWords(Words(s), strategy)), strategy)
  {
    var ws := Words(s);
    var fw := FilterWords(ws, strategy);
    SentenceNeverEmpty(s, strategy);
    assert Words(JoinSpace(fw)) == fw by {
      WordsAreWords(s);
      FilteredWordsAreWords(ws, strategy, |ws|);
      WordsOfJoin(fw);
    }
  }

  /** When no word list is empty, the j-th sentence is the j-th list joined by spaces. */
  lemma {:induction false} JoinAllNonEmpty(fws: seq<seq<string>>, k: nat)
    requires k <= |fws|
    requires forall j :: 0 <= j < |fws| ==> fws[j] != []
    ensures |JoinNonEmptyUpTo(fws, k)| == k
    ensures forall j :: 0 <= j < k ==> JoinNonEmptyUpTo(fws, k)[j] == JoinSpace(fws[j])
  {
    if k > 0 {
      JoinAllNonEmpty(fws, k - 1);
      var prev := JoinNonEmptyUpTo(fws, k - 1);
      var cur := JoinNonEmptyUpTo(fws, k);
      assert cur == prev + [JoinSpace(fws[k - 1])];
      forall j | 0 <= j < k
        ensures cur[j] == JoinSpace(fws[j])
      {
        if j < k - 1 {
          assert cur[j] == prev[j];
        }
      }
    }
  }

  /** No sentence is lost: the j-th output sentence is the j-th input sentence's filtered words joined by spaces. */
  lemma SentencesKept(ss: seq<string>, strategy: Strategy)
    requires forall j :: 0 <= j < |ss| ==> IsStripped(ss[j])
    ensures |FilteredSentences(ss, strategy)| == |ss|
    ensures forall j :: 0 <= j < |ss| ==>
      FilteredSentences(ss, strategy)[j] == JoinSpace(FilterWords(Words(ss[j]), strategy))
  {
    var fws := SentenceWordLists(ss, strategy);
    SentenceWordListsShape(ss, strategy);
    forall j | 0 <= j < |fws|
      ensures fws[j] != []
    {
      SentenceNeverEmpty(ss[j], strategy);
    }
    JoinAllNonEmpty(fws, |fws|);
  }

  /** On the output text: every sentence of the input gives one output sentence, which begins with its first word. */
  lemma EverySentenceKeepsItsFirstWord(strategy: Strategy, text: string)
    ensures var ss := SplitSentences(text);
      && |FilteredSentences(ss, strategy)| == |ss|
      && forall j :: 0 <= j < |ss| ==> SentenceKept(ss[j], FilteredSentences(ss, strategy)[j], strategy)
  {
    var ss := SplitSentences(text);
    SentencesAreStripped(text);
    SentencesKept(ss, strategy);
    forall j | 0 <= j < |ss|
      ensures SentenceKept(ss[j], FilteredSentences(ss, strategy)[j], strategy)
    {
      OneSentenceKept(ss[j], strategy);
    }
  }

  /** With strategy "mask" every output sentence has as many words as its input sentence. */
  lemma MaskedSentencesKeepWordCount(text: string)
    ensures var ss := SplitSentences(text);
      && |FilteredSentences(ss, Mask)| == |ss|
      && forall j :: 0 <= j < |ss| ==>
           |Words(FilteredSentences(ss, Mask)[j])| == |Words(ss[j])|
  {
    var ss := SplitSentences(text);
    SentencesAreStripped(text);
    SentencesKept(ss, Mask);
    forall j | 0 <= j < |ss|
      ensures |Words(FilteredSentences(ss, Mask)[j])| == |Words(ss[j])|
    {
      OneSentenceKept(ss[j], Mask);
      MaskKeepsPositions(Words(ss[j]), |Words(ss[j])|);
    }
  }

  // ---------------------------------------------------------------------
  // The words of the whole text

  /** The pieces of the split hold the words of the text read so far and of the rest, in order. */
  lemma {:induction false} WordsOfPieces(t: string, cur: string)
    ensures WordsOfAll(Pieces(t, cur)) == Words(cur + t)
    decreases |t|
  {
    if t == [] {
      assert cur + t == cur;
      assert WordsOfAll([cur]) == Words(cur) + WordsOfAll([]);
    } else if IsSpace(t[0]) && cur != [] && IsSentenceEnd(cur[|cur| - 1]) {
      var rest := Pieces(DropSpaces(t), []);
      WordsOfPieces(DropSpaces(t), []);
      assert [] + DropSpaces(t) == DropSpaces(t);
      WordsDropSpaces(t);
      WordsSplitAtSpace(cur, t);
      assert ([cur] + rest)[0] == cur && ([cur] + rest)[1..] == rest;
    } else {
      WordsOfPieces(t[1..], cur + [t[0]]);
      assert cur + [t[0]] + t[1..] == cur + t;
    }
  }

  lemma {:induction false} WordsOfStripEach(ps: seq<string>)
    ensures WordsOfAll(StripEach(ps)) == WordsOfAll(ps)
  {
    if ps != [] {
      WordsOfStripEach(ps[1..]);
      WordsOfStrip(ps[0]);
      var r := StripEach(ps);
      assert r[0] == Strip(ps[0]) && r[1..] == StripEach(ps[1..]);
    }
  }

  lemma {:induction false} WordsOfNonEmpty(ts: seq<string>)
    ensures WordsOfAll(NonEmpty(ts)) == WordsOfAll(ts)
  {
    if ts != [] {
      WordsOfNonEmpty(ts[1..]);
      var first := if ts[0] != [] then [ts[0]] else [];
      WordsOfAllAppend(first, NonEmpty(ts[1..]));
      if ts[0] != [] {
        assert WordsOfAll(first) == Words(ts[0]) + WordsOfAll([]);
      }
    }
  }

  /** Splitting into sentences loses no word and invents none: the sentences' words, in order, are the text's words. */
  lemma SentenceWordsAreTextWords(text: string)
    ensures WordsOfAll(SplitSentences(text)) == Words(text)
  {
    var ps := Pieces(text, []);
    WordsOfPieces(text, []);
    assert [] + text == text;
    WordsOfStripEach(ps);
    WordsOfNonEmpty(StripEach(ps));
  }

  /** The words of the output sentences are the lists they were joined from, in order; an empty list adds nothing. */
  lemma {:induction false} WordsOfJoinNonEmpty(fws: seq<seq<string>>, k: nat)
    requires k <= |fws|
    requires forall j :: 0 <= j < |fws| ==> AreWords(fws[j])
    ensures WordsOfAll(JoinNonEmptyUpTo(fws, k)) == Flatten(fws[..k])
  {
    if k == 0 {
      assert fws[..0] == [];
    } else {
      WordsOfJoinNonEmpty(fws, k - 1);
      var f := fws[k - 1];
      var last := if f != [] then [JoinSpace(f)] else [];
      WordsOfAllAppend(JoinNonEmptyUpTo(fws, k - 1), last);
      if f != [] {
        assert WordsOfAll(last) == Words(JoinSpace(f)) + WordsOfAll([]);
        WordsOfJoin(f);
      }
      assert fws[..k] == fws[..k - 1] + [f];
      FlattenSnoc(fws[..k - 1], f);
    }
  }

  /** The words of the filter's output are the filtered words of every sentence, in sentence order. */
  lemma HeuristicFilterWords(strategy: Strategy, text: string)
    ensures Words(HeuristicFilter(strategy, text)) == Flatten(SentenceWordLists(SplitSentences(text), strategy))
  {
    var ss := SplitSentences(text);
    var fws := SentenceWordLists(ss, strategy);
    WordsOfJoinAll(FilteredSentences(ss, strategy));
    SentenceWordListsShape(ss, strategy);
    forall j | 0 <= j < |fws|
      ensures AreWords(fws[j])
    {
      WordsAreWords(ss[j]);
      FilteredWordsAreWords(Words(ss[j]), strategy, |Words(ss[j])|);
    }
    WordsOfJoinNonEmpty(fws, |fws|);
    assert fws[..|fws|] == fws;
  }

  /** The positions, among all words of the sentences, of the words that the rule keeps in their sentence. */
  function TextKeptPositions(ss: seq<string>): seq<nat> {
    if ss == [] then []
    else
      var ws := Words(ss[0]);
      KeptPositions(ws, |ws|) + Shift(TextKeptPositions(ss[1..]), |ws|)
  }

  lemma {:induction false} RemoveSelectsKeptInAll(ss: seq<string>)
    ensures SelectsAt(Flatten(SentenceWordLists(ss, Remove)), WordsOfAll(ss), TextKeptPositions(ss))
  {
    if ss != [] {
      var ws := Words(ss[0]);
      var fws := SentenceWordLists(ss, Remove);
      RemoveSelectsKept(ws, |ws|);
      RemoveSelectsKeptInAll(ss[1..]);
      assert fws[0] == FilterWords(ws, Remove) && fws[1..] == SentenceWordLists(ss[1..], Remove);
      SelectsAtAppend(FilterWords(ws, Remove), ws, KeptPositions(ws, |ws|),
        Flatten(SentenceWordLists(ss[1..], Remove)), WordsOfAll(ss[1..]), TextKeptPositions(ss[1..]));
    }
  }

  /**
   * On the whole text, strategy "remove" returns an order-preserving
   * subsequence of the text's words: those the rule keeps in their sentence.
   */
  lemma RemoveKeepsTextWordsInOrder(text: string)
    ensures SelectsAt(Words(HeuristicFilter(Remove, text)), Words(text), TextKeptPositions(SplitSentences(text)))
  {
    HeuristicFilterWords(Remove, text);
    SentenceWordsAreTextWords(text);
    RemoveSelectsKeptInAll(SplitSentences(text));
  }

  lemma {:induction false} FilteredFromAll(ss: seq<string>, strategy: Strategy)
    ensures forall j :: 0 <= j < |Flatten(SentenceWordLists(ss, strategy))| ==>
      Flatten(SentenceWordLists(ss, strategy))[j] in WordsOfAll(ss)
      || Flatten(SentenceWordLists(ss, strategy))[j] == MaskToken
  {
    if ss != [] {
      var ws := Words(ss[0]);
      var fws := SentenceWordLists(ss, strategy);
      var head := FilterWords(ws, strategy);
      var tail := Flatten(SentenceWordLists(ss[1..], strategy));
      FilteredFromAll(ss[1..], strategy);
      FilteredWordsFromInput(ws, strategy, |ws|);
      assert fws[0] == head && fws[1..] == SentenceWordLists(ss[1..], strategy);
      var all := Flatten(fws);
      assert all == head + tail;
      forall j | 0 <= j < |all|
        ensures all[j] in WordsOfAll(ss) || all[j] == MaskToken
      {
        if j < |head| {
          assert all[j] == head[j];
        } else {
          assert all[j] == tail[j - |head|];
        }
      }
    }
  }

  /** On the whole text the filter invents no word: every output word is a word of the text or `[NAME]`. */
  lemma FilterNeverInventsWords(strategy: Strategy, text: string)
    ensures forall j :: 0 <= j < |Words(HeuristicFilter(strategy, text))| ==>
      Words(HeuristicFilter(strategy, text))[j] in Words(text) || Words(HeuristicFilter(strategy, text))[j] == MaskToken
  {
    HeuristicFilterWords(strategy, text);
    SentenceWordsAreTextWords(text);
    FilteredFromAll(SplitSentences(text), strategy);
  }

  lemma {:induction false} MaskKeepsWordCountInAll(ss: seq<string>)
    ensures |Flatten(SentenceWordLists(ss, Mask))| == |WordsOfAll(ss)|
  {
    if ss != [] {
      var ws := Words(ss[0]);
      var fws := SentenceWordLists(ss, Mask);
      MaskKeepsWordCountInAll(ss[1..]);
      MaskKeepsPositions(ws, |ws|);
      assert fws[0] == FilterWords(ws, Mask) && fws[1..] == SentenceWordLists(ss[1..], Mask);
    }
  }

  /** On the whole text strategy "mask" keeps the number of words. */
  lemma MaskKeepsTextWordCount(text: string)
    ensures |Words(HeuristicFilter(Mask, text))| == |Words(text)|
  {
    HeuristicFilterWords(Mask, text);
    SentenceWordsAreTextWords(text);
    MaskKeepsWordCountInAll(SplitSentences(text));
  }

  // ---------------------------------------------------------------------
  // identify_proper_nouns, heuristic branch

  /** End of the run of lower-case letters that starts at `p`. */
  function LowerRunEnd(t: string, p: nat): (q: nat)
    requires p <= |t|
    ensures p <= q <= |t|
    ensures forall i :: p <= i < q ==> IsLower(t[i])
    ensures q == |t| || !IsLower(t[q])
    decreases |t| - p
  {
    if p < |t| && IsLower(t[p]) then LowerRunEnd(t, p + 1) else p
  }

  /** End of the run of whitespace that starts at `p`. */
  function SpaceRunEnd(t: string, p: nat): (q: nat)
    requires p <= |t|
    ensures p <= q <= |t|
    ensures forall i :: p <= i < q ==> IsSpace(t[i])
    ensures q == |t| || !IsSpace(t[q])
    decreases |t| - p
  {
    if p < |t| && IsSpace(t[p]) then SpaceRunEnd(t, p + 1) else p
  }

  /** `[A-Z][a-z]+` matches at `p`. */
  predicate NameWordAt(t: string, p: nat) {
    p + 1 < |t| && IsUpper(t[p]) && IsLower(t[p + 1])
  }

  /** Where the `[A-Z][a-z]+` at `p` ends; the greedy `[a-z]+` takes the whole run. */
  function NameWordEnd(t: string, p: nat): (e: nat)
    requires NameWordAt(t, p)
    ensures p + 2 <= e <= |t|
  {
    LowerRunEnd(t, p + 1)
  }

  /** `\b` after a word character at `e - 1`. */
  predicate BoundaryAt(t: string, e: nat)
    requires e <= |t|
  {
    e == |t| || !IsWordChar(t[e])
  }

  /**
   * The end of a match of `(?:\s+[A-Z][a-z]+)*\b` given that the match so far
   * ends at `e`: the group is repeated greedily and given up one repetition
   * at a time until the final `\b` holds; `None` when no choice works.
   */
  function MatchEnd(t: string, e: nat): (r: Option<nat>)
    requires e <= |t|
    ensures r.Some? ==> e <= r.value <= |t|
    decreases |t| - e
  {
    var s := SpaceRunEnd(t, e);
    var longer := if s > e && NameWordAt(t, s) then MatchEnd(t, NameWordEnd(t, s)) else None;
    if longer.Some? then longer
    else if BoundaryAt(t, e) then Some(e)
    else None
  }

  /** The match of the whole pattern starting at `p`, if any: its end. */
  function MatchAt(t: string, p: nat): (r: Option<nat>)
    requires p < |t|
    ensures r.Some? ==> p + 2 <= r.value <= |t|
  {
    if (p == 0 || !IsWordChar(t[p - 1])) && NameWordAt(t, p) then MatchEnd(t, NameWordEnd(t, p))
    else None
  }

  /** `findall(r"\b[A-Z][a-z]+(?:\s+[A-Z][a-z]+)*\b", t)` scanning from `p`. */
  function FindNames(t: string, p: nat): seq<string>
    requires p <= |t|
    decreases |t| - p
  {
    if p == |t| then []
    else if MatchAt(t, p).Some? then [t[p..MatchAt(t, p).value]] + FindNames(t, MatchAt(t, p).value)
    else FindNames(t, p + 1)
  }

  /** `{s.split()[0] if s.split() else "" for s in sentences}`. */
  function FirstWords(text: string): set<string> {
    set s | s in SplitSentences(text) :: if Words(s) != [] then Words(s)[0] else ""
  }

  /** `[m for m in ms if m not in excluded]`. */
  function Without(ms: seq<string>, excluded: set<string>): seq<string> {
    if ms == [] then []
    else Without(ms[..|ms| - 1], excluded) + (if ms[|ms| - 1] !in excluded then [ms[|ms| - 1]] else [])
  }

  /** `identify_proper_nouns` without NLTK. */
  function IdentifyProperNouns(text: string): seq<string> {
    Without(FindNames(text, 0), FirstWords(text))
  }

  /** Every match is a capitalised word of at least two letters. */
  lemma {:induction false} NamesAreCapitalized(t: string, p: nat)
    requires p <= |t|
    ensures forall j :: 0 <= j < |FindNames(t, p)| ==>
      |FindNames(t, p)[j]| >= 2 && IsUpper(FindNames(t, p)[j][0]) && IsLower(FindNames(t, p)[j][1])
    decreases |t| - p
  {
    if p < |t| {
      if MatchAt(t, p).Some? {
        NamesAreCapitalized(t, MatchAt(t, p).value);
      } else {
        NamesAreCapitalized(t, p + 1);
      }
    }
  }

  /** The positions of `ms` whose element is not excluded, in increasing order. */
  function KeptMatches(ms: seq<string>, excluded: set<string>): (idx: seq<nat>)
    ensures forall j :: 0 <= j < |idx| ==> idx[j] < |ms|
    ensures forall j, l :: 0 <= j < l < |idx| ==> idx[j] < idx[l]
    ensures forall i :: 0 <= i < |ms| ==> (i in idx <==> ms[i] !in excluded)
  {
    if ms == [] then []
    else
      var n := |ms| - 1;
      var prev := KeptMatches(ms[..n], excluded);
      assert forall i :: 0 <= i < n ==> ms[..n][i] == ms[i];
      prev + (if ms[n] !in excluded then [n] else [])
  }

  /**
   * The identified proper nouns are the pattern matches, in order, that are
   * not the first word of any sentence, and all of those.
   */
  lemma {:induction false} WithoutSelects(ms: seq<string>, excluded: set<string>)
    ensures SelectsAt(Without(ms, excluded), ms, KeptMatches(ms, excluded))
    ensures forall j :: 0 <= j < |Without(ms, excluded)| ==> Without(ms, excluded)[j] !in excluded
  {
    if ms != [] {
      var n := |ms| - 1;
      WithoutSelects(ms[..n], excluded);
      assert forall i :: 0 <= i < n ==> ms[..n][i] == ms[i];
    }
  }

  lemma IdentifiedAreNotSentenceInitial(text: string)
    ensures var ms := FindNames(text, 0);
      && SelectsAt(IdentifyProperNouns(text), ms, KeptMatches(ms, FirstWords(text)))
      && forall j :: 0 <= j < |IdentifyProperNouns(text)| ==>
           IdentifyProperNouns(text)[j] !in FirstWords(text)
  {
    WithoutSelects(FindNames(text, 0), FirstWords(text));
  }
}
