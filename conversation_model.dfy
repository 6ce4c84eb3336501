/**
 * The values a conversation context derives from its turns: the
 * recency-weighted language distribution, the dominant language, the
 * current language streak and the context boost, together with the
 * bounded history the turns are kept in.
 */
module ConversationModel {
  import opened Wrappers
  import opened RealArith

  /** One message of a conversation with the language detected for it (`None` when detection failed). */
  datatype Turn = Turn(text: string, lang: Option<string>, confidence: real, timestamp: real)

  /** An insertion-ordered mapping from language to weight: `order` lists the keys of `weight` in first-seen order. */
  datatype Distribution = Distribution(order: seq<string>, weight: map<string, real>)

  function MinReal(a: real, b: real): real {
    if a <= b then a else b
  }

  /** `x ** k`. */
  function Pow(x: real, k: nat): real {
    if k == 0 then 1.0 else x * Pow(x, k - 1)
  }

  predicate Distinct(s: seq<string>) {
    forall i, j :: 0 <= i < j < |s| ==> s[i] != s[j]
  }

  // ---------------------------------------------------------------------
  // Bounded history

  /** The newest `cap` elements of `s`, oldest first (all of `s` when it is shorter). */
  function Newest<T>(s: seq<T>, cap: nat): seq<T> {
    if |s| <= cap then s else s[|s| - cap..]
  }

  /** Keeping the newest `cap` turns after each append is the same as keeping the newest `cap` of the whole history. */
  lemma NewestOfAppend<T>(s: seq<T>, x: T, cap: nat)
    ensures Newest(Newest(s, cap) + [x], cap) == Newest(s + [x], cap)
  {
    if |s| > cap && cap > 0 {
      assert s[|s| - cap..][1..] + [x] == (s + [x])[|s| + 1 - cap..];
    }
  }

  /** The bounded history holds at most `cap` turns, and all of them while there are no more. */
  lemma NewestLength<T>(s: seq<T>, cap: nat)
    ensures |Newest(s, cap)| <= cap && (|s| <= cap ==> Newest(s, cap) == s)
    ensures |Newest(s, cap)| == |s| || |Newest(s, cap)| == cap
  {
  }

  /** The bounded history ends with the newest turn and keeps the others in their original order. */
  lemma NewestShape<T>(s: seq<T>, cap: nat)
    ensures cap > 0 && s != [] ==> Newest(s, cap)[|Newest(s, cap)| - 1] == s[|s| - 1]
    ensures forall i :: 0 <= i < |Newest(s, cap)| ==> Newest(s, cap)[i] == s[|s| - |Newest(s, cap)| + i]
  {
  }

  // ---------------------------------------------------------------------
  // Language distribution

  /** A turn takes part in the distribution: its language is set, non-empty and not "unknown". */
  predicate Counted(t: Turn) {
    t.lang.Some? && t.lang.value != "" && t.lang.value != "unknown"
  }

  /** Weight of turn `i` of `n`: `decay ** (n - 1 - i) * confidence`. */
  function TurnWeight(turns: seq<Turn>, decay: real, i: nat): real
    requires i < |turns|
  {
    Pow(decay, |turns| - 1 - i) * turns[i].confidence
  }

  /** Total weight of the counted turns in language `l` among the first `k` turns. */
  function LangWeightUpTo(turns: seq<Turn>, decay: real, l: string, k: nat): real
    requires k <= |turns|
  {
    if k == 0 then 0.0
    else
      LangWeightUpTo(turns, decay, l, k - 1)
      + (if Counted(turns[k - 1]) && turns[k - 1].lang.value == l then TurnWeight(turns, decay, k - 1) else 0.0)
  }

  /** Total weight of the counted turns among the first `k` turns. */
  function TotalWeightUpTo(turns: seq<Turn>, decay: real, k: nat): real
    requires k <= |turns|
  {
    if k == 0 then 0.0
    else TotalWeightUpTo(turns, decay, k - 1) + (if Counted(turns[k - 1]) then TurnWeight(turns, decay, k - 1) else 0.0)
  }

  /** The languages of the counted turns among the first `k`, in first-seen order. */
  function LanguagesUpTo(turns: seq<Turn>, k: nat): seq<string>
    requires k <= |turns|
  {
    if k == 0 then []
    else
      var seen := LanguagesUpTo(turns, k - 1);
      if Counted(turns[k - 1]) && turns[k - 1].lang.value !in seen then seen + [turns[k - 1].lang.value] else seen
  }

  /** The weighted counts accumulated over the first `k` turns: each counted turn adds its weight to its language, starting from 0. */
  function CountsUpTo(turns: seq<Turn>, decay: real, k: nat): map<string, real>
    requires k <= |turns|
  {
    if k == 0 then map[]
    else
      var m := CountsUpTo(turns, decay, k - 1);
      var t := turns[k - 1];
      if Counted(t) then
        var m0 := if t.lang.value !in m then m[t.lang.value := 0.0] else m;
        m0[t.lang.value := m0[t.lang.value] + TurnWeight(turns, decay, k - 1)]
      else m
  }

  /** The accumulated counts have the listed languages as keys and each language's weight as value. */
  lemma {:induction false} CountsAreWeights(turns: seq<Turn>, decay: real, k: nat)
    requires k <= |turns|
    ensures forall l :: l in CountsUpTo(turns, decay, k) <==> l in LanguagesUpTo(turns, k)
    ensures forall l :: l in CountsUpTo(turns, decay, k) ==> CountsUpTo(turns, decay, k)[l] == LangWeightUpTo(turns, decay, l, k)
  {
    if k > 0 {
      CountsAreWeights(turns, decay, k - 1);
      var t := turns[k - 1];
      if Counted(t) && t.lang.value !in CountsUpTo(turns, decay, k - 1) {
        UnseenWeighsNothing(turns, decay, t.lang.value, k - 1);
      }
    }
  }

  /** `language_distribution`: each language's weight divided by the total, or empty when the total is not positive. */
  function DistributionOf(turns: seq<Turn>, decay: real): Distribution {
    var n := |turns|;
    var total := TotalWeightUpTo(turns, decay, n);
    if total > 0.0 then
      var order := LanguagesUpTo(turns, n);
      Distribution(order, map l | l in order :: LangWeightUpTo(turns, decay, l, n) / total)
    else Distribution([], map[])
  }

  /** Sum of the weights of `keys`. */
  function SumOf(keys: seq<string>, m: map<string, real>): real
    requires forall k :: k in keys ==> k in m
  {
    if keys == [] then 0.0 else SumOf(keys[..|keys| - 1], m) + m[keys[|keys| - 1]]
  }

  /** Sum over `keys` of their language weights among the first `k` turns. */
  function SumLangWeights(turns: seq<Turn>, decay: real, keys: seq<string>, k: nat): real
    requires k <= |turns|
  {
    if keys == [] then 0.0
    else SumLangWeights(turns, decay, keys[..|keys| - 1], k) + LangWeightUpTo(turns, decay, keys[|keys| - 1], k)
  }

  /** No language is listed twice. */
  lemma {:induction false} LanguagesDistinct(turns: seq<Turn>, k: nat)
    requires k <= |turns|
    ensures Distinct(LanguagesUpTo(turns, k))
  {
    if k > 0 {
      LanguagesDistinct(turns, k - 1);
    }
  }

  /** A language is listed exactly when some counted turn among the first `k` has it; none is listed twice. */
  lemma {:induction false} LanguagesSeen(turns: seq<Turn>, k: nat)
    requires k <= |turns|
    ensures Distinct(LanguagesUpTo(turns, k))
    ensures forall l :: l in LanguagesUpTo(turns, k) <==>
      exists i :: 0 <= i < k && Counted(turns[i]) && turns[i].lang.value == l
  {
    LanguagesDistinct(turns, k);
    if k > 0 {
      LanguagesSeen(turns, k - 1);
      forall l | l in LanguagesUpTo(turns, k)
        ensures exists i :: 0 <= i < k && Counted(turns[i]) && turns[i].lang.value == l
      {
        if l !in LanguagesUpTo(turns, k - 1) {
          assert Counted(turns[k - 1]) && turns[k - 1].lang.value == l;
        }
      }
    }
  }

  /** A language that no counted turn among the first `k` has weighs nothing. */
  lemma {:induction false} UnseenWeighsNothing(turns: seq<Turn>, decay: real, l: string, k: nat)
    requires k <= |turns|
    requires l !in LanguagesUpTo(turns, k)
    ensures LangWeightUpTo(turns, decay, l, k) == 0.0
  {
    if k > 0 {
      UnseenWeighsNothing(turns, decay, l, k - 1);
    }
  }

  /** Adding turn `k` adds its weight to the sum over `keys` exactly when its language is one of them. */
  lemma {:induction false} SumLangWeightsStep(turns: seq<Turn>, decay: real, keys: seq<string>, k: nat)
    requires k < |turns|
    requires Distinct(keys)
    ensures SumLangWeights(turns, decay, keys, k + 1)
      == SumLangWeights(turns, decay, keys, k)
         + (if Counted(turns[k]) && turns[k].lang.value in keys then TurnWeight(turns, decay, k) else 0.0)
  {
    if keys != [] {
      var ks := keys[..|keys| - 1];
      assert keys == ks + [keys[|keys| - 1]];
      SumLangWeightsStep(turns, decay, ks, k);
    }
  }

  /** The weights of the listed languages add up to the total weight. */
  lemma {:induction false} TotalIsSumOfLanguages(turns: seq<Turn>, decay: real, k: nat)
    requires k <= |turns|
    ensures SumLangWeights(turns, decay, LanguagesUpTo(turns, k), k) == TotalWeightUpTo(turns, decay, k)
  {
    if k > 0 {
      var seen := LanguagesUpTo(turns, k - 1);
      var t := turns[k - 1];
      var w := if Counted(t) then TurnWeight(turns, decay, k - 1) else 0.0;
      var before := SumLangWeights(turns, decay, seen, k - 1);
      assert before == TotalWeightUpTo(turns, decay, k - 1) by {
        TotalIsSumOfLanguages(turns, decay, k - 1);
      }
      assert TotalWeightUpTo(turns, decay, k) == TotalWeightUpTo(turns, decay, k - 1) + w;
      var grown := SumLangWeights(turns, decay, seen, k);
      assert grown == before + (if Counted(t) && t.lang.value in seen then w else 0.0) by {
        LanguagesDistinct(turns, k - 1);
        SumLangWeightsStep(turns, decay, seen, k - 1);
      }
      if Counted(t) && t.lang.value !in seen {
        var l := t.lang.value;
        var keys := seen + [l];
        assert LanguagesUpTo(turns, k) == keys;
        assert LangWeightUpTo(turns, decay, l, k) == w by {
          UnseenWeighsNothing(turns, decay, l, k - 1);
        }
        assert keys[..|keys| - 1] == seen;
        assert SumLangWeights(turns, decay, keys, k) == grown + w;
      } else {
        assert LanguagesUpTo(turns, k) == seen;
      }
    }
  }

  /** Dividing every weight by `total` divides their sum by `total`. */
  lemma {:induction false} SumOfScaled(turns: seq<Turn>, decay: real, keys: seq<string>, m: map<string, real>, total: real)
    requires total > 0.0
    requires forall l :: l in keys ==> l in m && m[l] == LangWeightUpTo(turns, decay, l, |turns|) / total
    ensures SumOf(keys, m) == SumLangWeights(turns, decay, keys, |turns|) / total
  {
    if keys != [] {
      var ks := keys[..|keys| - 1];
      var x := keys[|keys| - 1];
      SumOfScaled(turns, decay, ks, m, total);
      ScaleStep(SumOf(ks, m), m[x], total, SumLangWeights(turns, decay, ks, |turns|), LangWeightUpTo(turns, decay, x, |turns|));
    }
  }

  /** The distribution is empty exactly when the total weight is not positive (in particular with no turns). */
  lemma DistributionEmptyIff(turns: seq<Turn>, decay: real)
    ensures DistributionOf(turns, decay).order == [] <==> TotalWeightUpTo(turns, decay, |turns|) <= 0.0
    ensures turns == [] ==> DistributionOf(turns, decay) == Distribution([], map[])
  {
    TotalIsSumOfLanguages(turns, decay, |turns|);
  }

  /** The keys of the distribution are, when the total weight is positive, exactly the languages of the counted turns, each once. */
  lemma DistributionKeys(turns: seq<Turn>, decay: real)
    ensures var d := DistributionOf(turns, decay);
      && Distinct(d.order)
      && (forall l :: l in d.weight <==> l in d.order)
      && (TotalWeightUpTo(turns, decay, |turns|) > 0.0 ==>
            forall l :: l in d.order <==>
              exists i :: 0 <= i < |turns| && Counted(turns[i]) && turns[i].lang.value == l)
  {
    LanguagesSeen(turns, |turns|);
  }

  /** A non-empty distribution sums to exactly 1. */
  lemma DistributionSumsToOne(turns: seq<Turn>, decay: real)
    requires DistributionOf(turns, decay).order != []
    ensures var d := DistributionOf(turns, decay); SumOf(d.order, d.weight) == 1.0
  {
    var n := |turns|;
    var total := TotalWeightUpTo(turns, decay, n);
    var d := DistributionOf(turns, decay);
    assert total > 0.0;
    var sum := SumOf(d.order, d.weight);
    var parts := SumLangWeights(turns, decay, d.order, n);
    assert sum == parts / total by {
      SumOfScaled(turns, decay, d.order, d.weight, total);
    }
    assert parts == total by {
      TotalIsSumOfLanguages(turns, decay, n);
    }
    assert total / total == 1.0;
  }

  lemma {:induction false} PowNonNegative(x: real, k: nat)
    requires x >= 0.0
    ensures Pow(x, k) >= 0.0
  {
    if k > 0 {
      PowNonNegative(x, k - 1);
    }
  }

  predicate NonNegativeConfidences(turns: seq<Turn>) {
    forall i :: 0 <= i < |turns| ==> turns[i].confidence >= 0.0
  }

  /** With non-negative confidences and decay, each language weighs between 0 and the total. */
  lemma {:induction false} LangWeightWithinTotal(turns: seq<Turn>, decay: real, l: string, k: nat)
    requires k <= |turns|
    requires decay >= 0.0 && NonNegativeConfidences(turns)
    ensures 0.0 <= LangWeightUpTo(turns, decay, l, k) <= TotalWeightUpTo(turns, decay, k)
  {
    if k > 0 {
      LangWeightWithinTotal(turns, decay, l, k - 1);
      PowNonNegative(decay, |turns| - k);
      assert TurnWeight(turns, decay, k - 1) >= 0.0;
    }
  }

  /** With non-negative confidences and decay every value of the distribution lies in [0, 1]. */
  lemma DistributionInUnitRange(turns: seq<Turn>, decay: real, l: string)
    requires decay >= 0.0 && NonNegativeConfidences(turns)
    requires l in DistributionOf(turns, decay).weight
    ensures 0.0 <= DistributionOf(turns, decay).weight[l] <= 1.0
  {
    var n := |turns|;
    LangWeightWithinTotal(turns, decay, l, n);
    var a := LangWeightUpTo(turns, decay, l, n);
    var total := TotalWeightUpTo(turns, decay, n);
    RatioInUnitRange(a, total);
  }

  lemma {:induction false} PowDecreasing(x: real, a: nat, b: nat)
    requires 0.0 < x < 1.0
    requires a < b
    ensures Pow(x, b) < Pow(x, a)
    decreases b - a
  {
    PowPositive(x, a);
    Shrinks(x, Pow(x, a), Pow(x, a + 1));
    if a + 1 < b {
      PowDecreasing(x, a + 1, b);
    }
  }

  lemma Shrinks(x: real, p: real, q: real)
    requires 0.0 < x < 1.0 && p > 0.0 && q == x * p
    ensures q < p
  {
    assert (1.0 - x) * p > 0.0;
  }

  lemma {:induction false} PowPositive(x: real, k: nat)
    requires x > 0.0
    ensures Pow(x, k) > 0.0
  {
    if k > 0 {
      PowPositive(x, k - 1);
    }
  }

  /** With a decay in (0, 1), a later turn weighs more than an earlier turn of the same positive confidence. */
  lemma RecentTurnWeighsMore(turns: seq<Turn>, decay: real, i: nat, j: nat)
    requires i < j < |turns|
    requires 0.0 < decay < 1.0
    requires turns[i].confidence == turns[j].confidence > 0.0
    ensures TurnWeight(turns, decay, j) > TurnWeight(turns, decay, i)
  {
    PowDecreasing(decay, |turns| - 1 - j, |turns| - 1 - i);
  }

  /**
   * Recency weighting: with a decay below 1, a turn in one language followed by
   * a turn of equal confidence in another gives the later language the larger share.
   */
  lemma LaterLanguageOutweighsEarlier(earlier: Turn, later: Turn, decay: real)
    requires Counted(earlier) && Counted(later) && earlier.lang != later.lang
    requires earlier.confidence == later.confidence > 0.0
    requires 0.0 <= decay < 1.0
    ensures var d := DistributionOf([earlier, later], decay);
      && earlier.lang.value in d.weight && later.lang.value in d.weight
      && d.weight[later.lang.value] > d.weight[earlier.lang.value]
  {
    var turns := [earlier, later];
    var c := earlier.confidence;
    var x, y := earlier.lang.value, later.lang.value;
    assert Pow(decay, 1) == decay * Pow(decay, 0) == decay;
    assert TurnWeight(turns, decay, 0) == decay * c;
    assert TurnWeight(turns, decay, 1) == c;
    assert TotalWeightUpTo(turns, decay, 1) == decay * c;
    var total := TotalWeightUpTo(turns, decay, 2);
    assert total == decay * c + c;
    assert LangWeightUpTo(turns, decay, x, 1) == decay * c;
    assert LangWeightUpTo(turns, decay, x, 2) == decay * c;
    assert LangWeightUpTo(turns, decay, y, 1) == 0.0;
    assert LangWeightUpTo(turns, decay, y, 2) == c;
    assert LanguagesUpTo(turns, 1) == [x];
    assert LanguagesUpTo(turns, 2) == [x, y];
    assert decay * c < c;
    DivStrictlyMonotone(decay * c, c, total);
  }

  // ---------------------------------------------------------------------
  // Dominant language

  /** Index of the first key of maximal weight, scanning left to right and replacing only on a strictly larger weight. */
  function FirstMaxIndex(keys: seq<string>, m: map<string, real>): (j: nat)
    requires keys != []
    requires forall k :: k in keys ==> k in m
    ensures j < |keys|
    ensures forall i :: 0 <= i < |keys| ==> m[keys[i]] <= m[keys[j]]
    ensures forall i :: 0 <= i < j ==> m[keys[i]] < m[keys[j]]
  {
    if |keys| == 1 then 0
    else
      var best := FirstMaxIndex(keys[..|keys| - 1], m);
      if m[keys[|keys| - 1]] > m[keys[best]] then |keys| - 1 else best
  }

  /** `dominant_language`: `max(dist, key=dist.get)`, or `None` for an empty distribution. */
  function DominantOf(turns: seq<Turn>, decay: real): Option<string> {
    var d := DistributionOf(turns, decay);
    if d.order == [] then None else Some(d.order[FirstMaxIndex(d.order, d.weight)])
  }

  /** The dominant language is `None` exactly when the distribution is empty, and otherwise its first key of maximal weight. */
  lemma DominantIsFirstMaximal(turns: seq<Turn>, decay: real)
    ensures var d := DistributionOf(turns, decay);
      && (DominantOf(turns, decay).None? <==> d.order == [])
      && (DominantOf(turns, decay).Some? ==>
            exists j :: 0 <= j < |d.order| && d.order[j] == DominantOf(turns, decay).value
              && (forall i :: 0 <= i < |d.order| ==> d.weight[d.order[i]] <= d.weight[d.order[j]])
              && (forall i :: 0 <= i < j ==> d.weight[d.order[i]] < d.weight[d.order[j]]))
  {
    var d := DistributionOf(turns, decay);
    if d.order != [] {
      var j := FirstMaxIndex(d.order, d.weight);
      assert d.order[j] == DominantOf(turns, decay).value;
    }
  }

  // ---------------------------------------------------------------------
  // Language streak

  /** The number of newest turns, counted back from the last, whose language is `l`. */
  function StreakLength(turns: seq<Turn>, l: string): nat {
    if turns == [] || turns[|turns| - 1].lang != Some(l) then 0
    else 1 + StreakLength(turns[..|turns| - 1], l)
  }

  /** `get_language_streak`: the newest turn's language and how many newest turns share it, or `(None, 0)`. */
  function StreakOf(turns: seq<Turn>): (Option<string>, nat) {
    if turns == [] then (None, 0)
    else
      var newest := turns[|turns| - 1].lang;
      if newest.None? || newest.value == "" then (None, 0)
      else (newest, StreakLength(turns, newest.value))
  }

  lemma {:induction false} StreakLengthIsSuffix(turns: seq<Turn>, l: string)
    ensures StreakLength(turns, l) <= |turns|
    ensures forall j :: |turns| - StreakLength(turns, l) <= j < |turns| ==> turns[j].lang == Some(l)
    ensures StreakLength(turns, l) < |turns| ==> turns[|turns| - 1 - StreakLength(turns, l)].lang != Some(l)
  {
    if turns != [] && turns[|turns| - 1].lang == Some(l) {
      var init := turns[..|turns| - 1];
      StreakLengthIsSuffix(init, l);
      assert forall j :: 0 <= j < |init| ==> init[j] == turns[j];
    }
  }

  /**
   * The streak is `(None, 0)` exactly when there are no turns or the newest
   * has no language; otherwise it is the newest language with the length of
   * the longest run of newest turns in that language.
   */
  lemma StreakIsLongestSuffix(turns: seq<Turn>)
    ensures StreakOf(turns).0.None? <==>
      turns == [] || turns[|turns| - 1].lang.None? || turns[|turns| - 1].lang.value == ""
    ensures StreakOf(turns).0.None? ==> StreakOf(turns).1 == 0
    ensures StreakOf(turns).0.Some? ==>
      var l, k := StreakOf(turns).0.value, StreakOf(turns).1;
      && turns != [] && turns[|turns| - 1].lang == Some(l)
      && 1 <= k <= |turns|
      && (forall j :: |turns| - k <= j < |turns| ==> turns[j].lang == Some(l))
      && (k < |turns| ==> turns[|turns| - 1 - k].lang != Some(l))
  {
    if turns != [] && turns[|turns| - 1].lang.Some? {
      StreakLengthIsSuffix(turns, turns[|turns| - 1].lang.value);
    }
  }

  // ---------------------------------------------------------------------
  // Context boost

  /** The streak bonus: `min(count * 0.02, 0.1)` when the streak is in `language` and at least 2 long. */
  function StreakBonus(turns: seq<Turn>, language: string): real {
    var (streakLang, count) := StreakOf(turns);
    if streakLang == Some(language) && count >= 2 then MinReal(count as real * 0.02, 0.1) else 0.0
  }

  /** `get_context_boost`: `min(dist[language] * 0.15 + bonus, 0.3)`, or 0 for a language not in the distribution. */
  function BoostOf(turns: seq<Turn>, decay: real, language: string): real {
    var d := DistributionOf(turns, decay);
    if language !in d.weight then 0.0
    else MinReal(d.weight[language] * 0.15 + StreakBonus(turns, language), 0.3)
  }

  /**
   * With non-negative confidences and decay the boost lies in [0, 0.3], is 0
   * for a language without history, and is the share times 0.15 plus the
   * streak bonus: the cap of 0.3 is never reached, since share <= 1 and bonus <= 0.1.
   */
  lemma BoostBounds(turns: seq<Turn>, decay: real, language: string)
    requires decay >= 0.0 && NonNegativeConfidences(turns)
    ensures 0.0 <= BoostOf(turns, decay, language) <= 0.3
    ensures language !in DistributionOf(turns, decay).weight ==> BoostOf(turns, decay, language) == 0.0
    ensures language in DistributionOf(turns, decay).weight ==>
      BoostOf(turns, decay, language)
        == DistributionOf(turns, decay).weight[language] * 0.15 + StreakBonus(turns, language)
  {
    var d := DistributionOf(turns, decay);
    if language in d.weight {
      DistributionInUnitRange(turns, decay, language);
    }
  }

  /** Without a streak of at least 2 turns in the language there is no bonus; with one the bonus is in [0.04, 0.1]. */
  lemma StreakBonusRange(turns: seq<Turn>, language: string)
    ensures StreakOf(turns).0 != Some(language) || StreakOf(turns).1 < 2 ==> StreakBonus(turns, language) == 0.0
    ensures StreakOf(turns).0 == Some(language) && StreakOf(turns).1 >= 2 ==>
      StreakBonus(turns, language) == MinReal(StreakOf(turns).1 as real * 0.02, 0.1)
      && 0.04 <= StreakBonus(turns, language) <= 0.1
  {
  }
}
