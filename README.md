# fastlangid core in Dafny

This project models three self-contained parts of the fastlangid language-detection library and proves properties of them.

- **Conversation context** (`src/fastlangid/context/conversation.py`). A conversation keeps a bounded history of turns. Each turn records a text, the language detected for it, a confidence and a timestamp. The newest `max_turns` turns are kept and older ones are dropped.
  - From the kept turns the context derives a recency-weighted language distribution. Turn *i* of *n* weighs `decay_factor^(n-1-i) * confidence`, and the weights are normalised to sum to 1.
  - It also derives the dominant language, the streak of same-language turns counted back from the newest turn, and a small confidence boost for a candidate language.
  - Module `ConversationModel` holds the specification functions and their lemmas. Module `Conversation` holds the class `ConversationContext`. Its loop-based operations are proved equal to those functions.
- **Proper-noun filter, heuristic path** (`src/fastlangid/preprocessing/proper_noun_filter.py`). The text is split into sentences at whitespace that follows `.`, `!` or `?`. Each sentence is split into words.
  - A capitalised word is removed (strategy "remove") or replaced by `[NAME]` (strategy "mask") when it is not the sentence's first word, not a common word, contains no digit and is not an acronym.
  - Strategy "none" returns the text unchanged.
  - On the whole text, the output's words come from the input's words: under "remove" they are an order-preserving subsequence of them, under "mask" they are as many, and no strategy invents a word other than `[NAME]`. This rests on the sentence split keeping exactly the text's words.
  - `identify_proper_nouns` lists the matches of the capitalised-name pattern that are not the first word of any sentence.
  - Module `ProperNounFilter` holds this part. It uses `Text`, a model of the `str` operations involved (`split()`, `strip()`, `" ".join`, `lower()`), and `Selection`, which defines order-preserving subsequences.
- **Detection cache** (`src/fastlangid/cache.py`). A keyed store holds at most `max_size` entries. It counts the lookups that found a value (hits) and the lookups that did not (misses), and reports a hit rate.
  - Module `Cache` holds the class `DetectionCache<V>`.

Module `Scenarios` replays each test of `tests/test_context.py` against the contracts: adding a turn, the dominant language after the oldest turn is evicted, the distribution, recency weighting, the streak, both halves of the context boost, the turn bound, clearing and the empty context. Its cache scenario, `CacheCounters`, is the model's own: no test of the repository exercises `DetectionCache`.

Python's `None` is `Option.None` (module `Wrappers`). A dictionary whose insertion order matters is the datatype `Distribution`, which pairs the keys in first-seen order with a `map`. Floats are `real`.

Where the code and its documentation disagree, the model follows the code:
- The `ConversationContext` docstring gives 20 as the default for `max_turns`; the field's default is 2, and the constructor uses 2.
- The `add_turn` docstring (conversation.py:83) tells callers to pass `None` or `"und"` when detection failed. The distribution, however, skips only `None`, `""` and `"unknown"` (conversation.py:139), so a turn marked `"und"` is counted as a language. The model does the same.
- The streak test (conversation.py:166) rejects only `None` and `""`. So an `"unknown"` newest turn does start a streak, even though it is left out of the distribution.

## Model

| member | source | states |
|---|---|---|
| ConversationModel.NewestOfAppend | src/fastlangid/context/conversation.py:92-98 | Appending a turn to the bounded buffer and keeping the newest `max_turns` gives the newest `max_turns` of the whole history: eviction is first-in first-out. |
| ConversationModel.NewestLength | src/fastlangid/context/conversation.py:65-66 | The buffer never holds more than `max_turns` turns, and holds all of them while there are no more. |
| ConversationModel.NewestShape | src/fastlangid/context/conversation.py:98-103 | The newest turn is last, and the kept turns are the history's latest ones in their original order. |
| ConversationModel.LanguagesSeen | src/fastlangid/context/conversation.py:139-147 | A language is a key exactly when some turn with a set, non-empty, non-"unknown" language has it, and no key is listed twice. |
| ConversationModel.LanguagesDistinct | src/fastlangid/context/conversation.py:139-147 | A language enters the key order only the first time it is seen, so no key is listed twice. |
| ConversationModel.CountsAreWeights | src/fastlangid/context/conversation.py:134-148 | The dictionary the loop accumulates has exactly the seen languages as keys, each mapped to its summed recency-weighted confidence. |
| ConversationModel.TotalIsSumOfLanguages | src/fastlangid/context/conversation.py:142-148 | The accumulated total weight equals the sum of the per-language weights. |
| ConversationModel.DistributionEmptyIff | src/fastlangid/context/conversation.py:130-153 | The distribution is empty exactly when the total weight is not positive, and always when there are no turns. |
| ConversationModel.DistributionKeys | src/fastlangid/context/conversation.py:139-152 | The distribution's keys are distinct, agree with its map, and, when the total is positive, are exactly the languages of the counted turns. |
| ConversationModel.SumOfScaled | src/fastlangid/context/conversation.py:151-152 | Summing the normalised values over a list of languages equals summing their weights and dividing by the total. |
| ConversationModel.DistributionSumsToOne | src/fastlangid/context/conversation.py:151-152 | A non-empty distribution's values sum to exactly 1. |
| ConversationModel.LangWeightWithinTotal | src/fastlangid/context/conversation.py:141-148 | With non-negative decay and confidences, each language's weight lies between 0 and the total weight. |
| ConversationModel.DistributionInUnitRange | src/fastlangid/context/conversation.py:151-152 | With non-negative decay and confidences, every value of the distribution lies in [0, 1]. |
| ConversationModel.PowDecreasing | src/fastlangid/context/conversation.py:141 | For a decay in (0, 1), a larger exponent gives a strictly smaller recency weight. |
| ConversationModel.RecentTurnWeighsMore | src/fastlangid/context/conversation.py:141-142 | For a decay in (0, 1), a later turn outweighs an earlier turn of the same positive confidence. |
| ConversationModel.LaterLanguageOutweighsEarlier | src/fastlangid/context/conversation.py:141-152 | With a decay in [0, 1), a turn in one language followed by an equally confident turn in another gives the later language the larger share. |
| ConversationModel.FirstMaxIndex | src/fastlangid/context/conversation.py:120 | `max` over the keys picks a key of maximal weight, and every earlier key weighs strictly less. |
| ConversationModel.DominantIsFirstMaximal | src/fastlangid/context/conversation.py:117-120 | The dominant language is `None` exactly when the distribution is empty. Otherwise it is the first key, in first-seen order, of maximal weight. |
| ConversationModel.StreakLengthIsSuffix | src/fastlangid/context/conversation.py:172-176 | The counted turns are a suffix all in the language, and the turn before them, if any, is in another language. |
| ConversationModel.StreakIsLongestSuffix | src/fastlangid/context/conversation.py:162-178 | The streak is `(None, 0)` exactly when there are no turns or the newest has no language. Otherwise it is the newest language with the length, between 1 and the turn count, of the longest run of newest turns in it. |
| ConversationModel.BoostBounds | src/fastlangid/context/conversation.py:190-203 | With non-negative decay and confidences the boost lies in [0, 0.3] and is 0 for a language outside the distribution. Otherwise it is the share times 0.15 plus the streak bonus, because the 0.3 cap never binds. |
| ConversationModel.StreakBonusRange | src/fastlangid/context/conversation.py:198-201 | No bonus is given unless the streak is in the language and at least 2 long; a bonus, when given, lies in [0.04, 0.1]. |
| Conversation.ConversationContext.constructor | src/fastlangid/context/conversation.py:57-66 | A new context has no turns, with `max_turns` 2 and `decay_factor` 0.9 by default. |
| Conversation.ConversationContext.AddTurn | src/fastlangid/context/conversation.py:92-98 | The turn is appended to the history, and the kept turns are the newest `max_turns` of it. |
| Conversation.ConversationContext.Turns | src/fastlangid/context/conversation.py:100-103 | The turns, oldest first, are at most `max_turns` and are the latest turns of the history in order. |
| Conversation.ConversationContext.LastTurn | src/fastlangid/context/conversation.py:105-108 | The last turn is the one most recently added, and `None` exactly when nothing is kept. |
| Conversation.ConversationContext.Len | src/fastlangid/context/conversation.py:209-210 | The length is the number of turns added since the last clear, capped at `max_turns`. |
| Conversation.ConversationContext.IsNonEmpty | src/fastlangid/context/conversation.py:215-216 | The context is truthy exactly when a turn was added since the last clear and `max_turns > 0`. |
| Conversation.ConversationContext.LanguageDistribution | src/fastlangid/context/conversation.py:122-153 | The loop that accumulates the per-language weights and the total computes `DistributionOf`, whose properties are the lemmas above. |
| Conversation.ConversationContext.GetLanguageStreak | src/fastlangid/context/conversation.py:155-178 | The backward walk with `break` computes `StreakOf`, characterised by `StreakIsLongestSuffix`. |
| Conversation.ConversationContext.DominantLanguage | src/fastlangid/context/conversation.py:110-120 | It computes `DominantOf`, the first key of maximal weight, or `None` (see `DominantIsFirstMaximal`). |
| Conversation.ConversationContext.GetContextBoost | src/fastlangid/context/conversation.py:180-203 | It computes `BoostOf`. The boost never exceeds the 0.3 cap, and for non-negative decay and confidences it is at least 0. |
| Conversation.ConversationContext.Clear | src/fastlangid/context/conversation.py:205-207 | After clearing nothing is kept, the distribution is empty, there is no dominant language and the streak is `(None, 0)`. |
| ProperNounFilter.FilterWithHeuristics | src/fastlangid/preprocessing/proper_noun_filter.py:99-139 | Splitting into sentences, filtering each and joining the results with single spaces computes `HeuristicFilter`. |
| ProperNounFilter.IsDropped | src/fastlangid/preprocessing/proper_noun_filter.py:108-134 | The per-word test: a word is taken for a proper noun exactly when it is capitalised, not first in its sentence, not a common word once its non-word characters are removed and it is lower-cased, digit-free and not an acronym. `KeptPositions` and `MaskKeepsPositions` state what the filter does with it. |
| ProperNounFilter.Emit | src/fastlangid/preprocessing/proper_noun_filter.py:122-134 | What one word contributes: the word itself when it is kept, `[NAME]` under "mask", nothing otherwise. `FilterSentenceWords` is proved to compute these contributions, and `MaskKeepsPositions` and `RemoveSelectsKept` characterise them. |
| ProperNounFilter.FilterSentences | src/fastlangid/preprocessing/proper_noun_filter.py:100-137 | The loop over the sentences computes `FilteredSentences`: each sentence's filtered words joined by single spaces, with word-less sentences dropped. |
| ProperNounFilter.FilterSentenceWords | src/fastlangid/preprocessing/proper_noun_filter.py:104-134 | The loop over one sentence's words computes `FilterWords`: every word is kept, masked or removed by the per-word rule. |
| ProperNounFilter.Filter | src/fastlangid/preprocessing/proper_noun_filter.py:72-88 | Strategy "none" returns the text unchanged; the other strategies give the heuristic filter's result. |
| ProperNounFilter.FirstWordKept | src/fastlangid/preprocessing/proper_noun_filter.py:110-128 | The first word of a sentence is always kept verbatim. |
| ProperNounFilter.MaskKeepsPositions | src/fastlangid/preprocessing/proper_noun_filter.py:122-133 | Under "mask" a sentence keeps its word count. A word becomes `[NAME]` exactly when it is capitalised, not first, not common, digit-free and not an acronym. Otherwise it is kept as it is. |
| ProperNounFilter.KeptPositions | src/fastlangid/preprocessing/proper_noun_filter.py:122-131 | The positions listed increase, and are exactly the positions of the words the rule keeps. |
| ProperNounFilter.RemoveSelectsKept | src/fastlangid/preprocessing/proper_noun_filter.py:103-134 | Under "remove" the output words are the input words at exactly the kept positions, in order: an order-preserving subsequence. |
| ProperNounFilter.FilteredWordsFromInput | src/fastlangid/preprocessing/proper_noun_filter.py:106-134 | Every output word is an input word or `[NAME]`; no word is invented. |
| ProperNounFilter.StrippedPiece | src/fastlangid/preprocessing/proper_noun_filter.py:176 | A piece that does not strip to "" strips to a stripped sentence. |
| ProperNounFilter.NonEmptyFrom | src/fastlangid/preprocessing/proper_noun_filter.py:176 | The comprehension's condition keeps only non-empty strings of its input. |
| ProperNounFilter.SentencesAreStripped | src/fastlangid/preprocessing/proper_noun_filter.py:171-176 | Every sentence of the split is non-empty and has no whitespace at either end. |
| ProperNounFilter.BlankPieces | src/fastlangid/preprocessing/proper_noun_filter.py:174-175 | Splitting whitespace-only text at whitespace after `.`, `!` or `?` gives a single piece, the text itself. |
| ProperNounFilter.BlankTextFiltersToEmpty | src/fastlangid/preprocessing/proper_noun_filter.py:171-176 | Empty or whitespace-only text has no sentences, and the heuristic filter returns "". |
| ProperNounFilter.SentenceWordListsShape | src/fastlangid/preprocessing/proper_noun_filter.py:102-134 | There is one list of filtered words per sentence, in sentence order. |
| ProperNounFilter.SentenceNeverEmpty | src/fastlangid/preprocessing/proper_noun_filter.py:103-128 | A stripped sentence has a word, and its filtered words are non-empty and begin with that first word. |
| ProperNounFilter.OneSentenceKept | src/fastlangid/preprocessing/proper_noun_filter.py:103-137 | The output sentence of a stripped sentence splits back into the sentence's filtered words and begins with its first word. |
| ProperNounFilter.JoinAllNonEmpty | src/fastlangid/preprocessing/proper_noun_filter.py:136-137 | When no sentence is left without words, the j-th output sentence is the j-th list of filtered words joined by spaces, and there is one per sentence. |
| ProperNounFilter.SentencesKept | src/fastlangid/preprocessing/proper_noun_filter.py:102-137 | Each stripped input sentence gives exactly one output sentence, in order: its filtered words joined by single spaces. |
| ProperNounFilter.EverySentenceKeepsItsFirstWord | src/fastlangid/preprocessing/proper_noun_filter.py:99-139 | For any text, the output has one sentence per input sentence. Each splits back into its input sentence's filtered words and begins with that sentence's first word. |
| ProperNounFilter.MaskedSentencesKeepWordCount | src/fastlangid/preprocessing/proper_noun_filter.py:129-137 | Under "mask" every output sentence has as many words as its input sentence. |
| ProperNounFilter.Pieces | src/fastlangid/preprocessing/proper_noun_filter.py:174-175 | `re.split(r"(?<=[.!?])\s+", text)`: a whitespace run ends a piece only right after `.`, `!` or `?`, and is consumed whole. `WordsOfPieces` states that the pieces hold exactly the text's words, and `BlankPieces` that blank text is a single piece. |
| ProperNounFilter.SplitSentences | src/fastlangid/preprocessing/proper_noun_filter.py:171-176 | `_split_sentences`: the pieces stripped, with empty ones dropped. `SentenceWordsAreTextWords` states that the sentences hold exactly the text's words in order, and `SentencesAreStripped` that each is non-empty and stripped. |
| ProperNounFilter.WordsOfPieces | src/fastlangid/preprocessing/proper_noun_filter.py:174-175 | Splitting at whitespace after sentence ends neither loses nor adds a word: the pieces' words, in order, are the words of the text. |
| ProperNounFilter.WordsOfStripEach | src/fastlangid/preprocessing/proper_noun_filter.py:176 | Stripping every piece keeps their words. |
| ProperNounFilter.WordsOfNonEmpty | src/fastlangid/preprocessing/proper_noun_filter.py:176 | Dropping the empty pieces keeps all words, so no piece with a word is lost. |
| ProperNounFilter.SentenceWordsAreTextWords | src/fastlangid/preprocessing/proper_noun_filter.py:171-176 | The words of the sentences, one sentence after another, are exactly the words of the text. |
| ProperNounFilter.WordsOfJoinNonEmpty | src/fastlangid/preprocessing/proper_noun_filter.py:136-137 | The words of the output sentences are the filtered word lists they were joined from, in order; a list left empty adds nothing. |
| ProperNounFilter.HeuristicFilterWords | src/fastlangid/preprocessing/proper_noun_filter.py:99-139 | The words of the filter's output are the filtered words of every sentence, in sentence order. |
| ProperNounFilter.RemoveSelectsKeptInAll | src/fastlangid/preprocessing/proper_noun_filter.py:102-137 | Under "remove" the filtered words of all sentences are the sentences' words at the positions the rule keeps in each sentence, in order. |
| ProperNounFilter.RemoveKeepsTextWordsInOrder | src/fastlangid/preprocessing/proper_noun_filter.py:99-139 | On the whole text, "remove" returns an order-preserving subsequence of the text's words: exactly those the rule keeps in their sentence. |
| ProperNounFilter.FilteredFromAll | src/fastlangid/preprocessing/proper_noun_filter.py:102-134 | Every filtered word of any sentence is a word of the sentences or `[NAME]`. |
| ProperNounFilter.FilterNeverInventsWords | src/fastlangid/preprocessing/proper_noun_filter.py:99-139 | On the whole text, every output word is a word of the input text or `[NAME]`. |
| ProperNounFilter.MaskKeepsWordCountInAll | src/fastlangid/preprocessing/proper_noun_filter.py:129-134 | Under "mask" the filtered words of all sentences are as many as the sentences' words. |
| ProperNounFilter.MaskKeepsTextWordCount | src/fastlangid/preprocessing/proper_noun_filter.py:99-139 | On the whole text, "mask" keeps the number of words. |
| ProperNounFilter.NamesAreCapitalized | src/fastlangid/preprocessing/proper_noun_filter.py:60 | Every match of the proper-noun pattern is at least two characters long, an upper-case letter followed by a lower-case one. |
| ProperNounFilter.MatchEnd | src/fastlangid/preprocessing/proper_noun_filter.py:60 | The greedy `(?:\s+[A-Z][a-z]+)*` followed by `\b`, giving up one repetition at a time: when a match exists, it ends at or after the point reached so far and within the text. |
| ProperNounFilter.MatchAt | src/fastlangid/preprocessing/proper_noun_filter.py:60 | A match of the whole pattern starts with `\b` and `[A-Z][a-z]+`. When there is one, it is at least two characters long and ends within the text. |
| ProperNounFilter.FindNames | src/fastlangid/preprocessing/proper_noun_filter.py:196 | `findall` scanning left to right and resuming after each match. `NamesAreCapitalized` characterises what it returns. |
| ProperNounFilter.FirstWords | src/fastlangid/preprocessing/proper_noun_filter.py:198-199 | The set of the sentences' first words. `IdentifiedAreNotSentenceInitial` states that no identified noun is in it. |
| ProperNounFilter.Without | src/fastlangid/preprocessing/proper_noun_filter.py:201 | The comprehension that drops the excluded matches. `WithoutSelects` states that it keeps exactly the non-excluded matches, in order. |
| ProperNounFilter.IdentifyProperNouns | src/fastlangid/preprocessing/proper_noun_filter.py:195-201 | `identify_proper_nouns` without NLTK: the pattern matches that are not a sentence's first word. `IdentifiedAreNotSentenceInitial` characterises the result. |
| ProperNounFilter.KeptMatches | src/fastlangid/preprocessing/proper_noun_filter.py:201 | The positions listed increase, and are exactly the positions of the matches that are not excluded. |
| ProperNounFilter.WithoutSelects | src/fastlangid/preprocessing/proper_noun_filter.py:201 | The comprehension keeps exactly the non-excluded matches, in order. |
| ProperNounFilter.IdentifiedAreNotSentenceInitial | src/fastlangid/preprocessing/proper_noun_filter.py:195-201 | The identified proper nouns are the pattern matches, in order, that are not the first word of any sentence, and all of them. |
| Text.DropSpacesShape | src/fastlangid/preprocessing/proper_noun_filter.py:176 | `lstrip()` removes exactly a whitespace prefix: the result is a suffix of the input, what it drops is whitespace, and it does not start with whitespace. |
| Text.DropTrailingSpacesShape | src/fastlangid/preprocessing/proper_noun_filter.py:176 | `rstrip()` removes exactly a whitespace suffix: the result is a prefix of the input, what it drops is whitespace, and it does not end with whitespace. |
| Text.StripShape | src/fastlangid/preprocessing/proper_noun_filter.py:176 | `strip()` gives "" exactly for whitespace-only text; otherwise the result has no whitespace at either end. |
| Text.WordsAreWords | src/fastlangid/preprocessing/proper_noun_filter.py:103 | Every word of `split()` is non-empty and has no whitespace. |
| Text.WordsOfJoin | src/fastlangid/preprocessing/proper_noun_filter.py:137 | Splitting words joined by single spaces gives the words back. |
| Text.WordsSplitAtSpace | src/fastlangid/preprocessing/proper_noun_filter.py:103 | `split()` of a text, then whitespace, then more text gives the two parts' words in turn. |
| Text.WordsOfStrip | src/fastlangid/preprocessing/proper_noun_filter.py:176 | `strip()` keeps the words of a text. |
| Text.WordsOfJoinAll | src/fastlangid/preprocessing/proper_noun_filter.py:139 | Splitting any strings joined by single spaces gives their words in turn. |
| Cache.HitRate | src/fastlangid/cache.py:68-69 | The hit rate lies in [0, 1]. It is 0 before any lookup; otherwise it is hits divided by lookups, and it is 1 exactly when there were hits and no misses. |
| Cache.DetectionCache.constructor | src/fastlangid/cache.py:23-27 | A new cache is empty with both counters 0, and holds 1000 entries by default. |
| Cache.DetectionCache.Get | src/fastlangid/cache.py:29-43 | It returns the stored value, or `None` for a missing key. It increments exactly one counter: hits when the result is a value, misses otherwise, including for a stored `None`. The store is unchanged. |
| Cache.DetectionCache.Put | src/fastlangid/cache.py:45-52 | With capacity 0 it is refused. Otherwise the key then maps to the value and other entries keep their values. A new key in a full store evicts at most one entry. The counters are unchanged. |
| Cache.DetectionCache.Clear | src/fastlangid/cache.py:54-58 | The store is empty and both counters are 0. |
| Cache.DetectionCache.Size | src/fastlangid/cache.py:60-63 | The size never exceeds `max_size` and is 0 exactly for an empty store. |
| Cache.DetectionCache.Len | src/fastlangid/cache.py:78-79 | `len` is the same count as `size` and never exceeds `max_size`. |
| Cache.DetectionCache.Contains | src/fastlangid/cache.py:81-82 | Membership means the key has an entry, whatever its value; a member implies a non-empty store. |
| Cache.DetectionCache.Stats | src/fastlangid/cache.py:65-76 | The record holds the store's current size, the capacity, the hit and miss counters that `Get` increments, and `HitRate` of those counters. The size is within capacity and hits plus misses equals the number of lookups. The hit rate lies in [0, 1]; it is 0 with no lookups and otherwise hits divided by lookups. |
| Cache.PutThenGet | src/fastlangid/cache.py:38-52 | With capacity at least 1, a `put` followed by a `get` of the same key returns the value put, and counts a hit exactly when that value is not `None`. |

## Left out

- The NLTK path of the proper-noun filter (`_nltk_available`, `_filter_with_nltk`, the NLTK branch of `identify_proper_nouns`) relies on a foreign tagger and tokenizer, so the model always takes the path used when NLTK is not in use.
- Character classes are the ASCII subset of Python's Unicode classes. This covers `isupper`, `isdigit`, `lower`, `\w`, `\s` and the whitespace seen by `split()` and `strip()`; Unicode tables are not modelled.
- `Strategy` has the three strategies the constructor documents. The source treats any other string as "remove", because only "none" and "mask" are tested for.
- Text.ToLower: its contract states only that the length is kept. Text.WordChars: its contract states only that the result is no longer. The per-character facts are left to their definitions, to keep the filter loop's proof small.
- `time.time()` becomes the `timestamp` parameter of `AddTurn`.
- The keyword defaults of `add_turn` (`detected_language=None`, `confidence=0.0`) are not kept; callers pass all values.
- Floating-point rounding is not modelled: confidences, decay, weights and the hit rate are exact reals, and `decay_factor ** k` is an exact power.
- `max_turns` and `max_size` are natural numbers, so a negative value cannot be expressed. A negative `max_turns` makes `deque(maxlen=...)` raise `ValueError` when the context is created (conversation.py:66). A negative `max_size` is stored unchecked (cache.py:23-27) and fails only at the first `put`, inside `cachetools`.
- `max_turns` and `decay_factor` are constants of the context. The source's dataclass fields can be reassigned, but the deque's bound is fixed at creation.
- Cache.DetectionCache.Put: it does not say which entry is evicted. The least-recently-used order belongs to the `cachetools` library, whose source is not part of this model. A capacity of 0, for which that library raises `ValueError`, is reported by `Put` returning `false` with nothing changed.
- Cache.DetectionCache.Get: it does not model the recency update that a lookup performs inside the `cachetools` store, for the same reason.
- The "thread-safe" remark on the cache, and the absence of locking in the context, concern concurrency, which is not modelled.
- `to_dict`, `from_dict` and `from_history` are not in the conversation source shown, and `__iter__` is the same sequence as `Turns`.
