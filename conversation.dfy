/** The conversation context: a bounded history of turns and the queries over it. */
module Conversation {
  import opened Wrappers
  import opened ConversationModel

  class ConversationContext {
    /** Maximum number of turns remembered; older turns are discarded. */
    const maxTurns: nat
    /** Factor by which a turn's weight shrinks for each newer turn. */
    const decayFactor: real
    /** The remembered turns, oldest first. */
    var turns: seq<Turn>
    /** Every turn added since creation or the last `Clear`, oldest first. */
    ghost var history: seq<Turn>

    /** The remembered turns are the newest `maxTurns` of the history. */
    ghost predicate Valid()
      reads this
    {
      turns == Newest(history, maxTurns)
    }

    constructor (maxTurns: nat := 2, decayFactor: real := 0.9)
      ensures Valid()
      ensures this.maxTurns == maxTurns && this.decayFactor == decayFactor
      ensures turns == [] && history == []
    {
      this.maxTurns := maxTurns;
      this.decayFactor := decayFactor;
      turns := [];
      history := [];
    }

    /**
     * `add_turn`: append a turn; when `maxTurns` turns are already kept the
     * oldest is dropped, and with `maxTurns == 0` nothing is kept.
     */
    method AddTurn(text: string, detectedLanguage: Option<string>, confidence: real, timestamp: real)
      requires Valid()
      modifies this
      ensures Valid()
      ensures history == old(history) + [Turn(text, detectedLanguage, confidence, timestamp)]
      ensures turns == Newest(old(turns) + [Turn(text, detectedLanguage, confidence, timestamp)], maxTurns)
    {
      var turn := Turn(text, detectedLanguage, confidence, timestamp);
      NewestLength(history, maxTurns);
      if maxTurns == 0 {
      } else if |turns| == maxTurns {
        turns := turns[1..] + [turn];
      } else {
        turns := turns + [turn];
      }
      NewestOfAppend(history, turn, maxTurns);
      history := history + [turn];
    }

    /** `turns`: the newest `maxTurns` turns of the history, oldest first. */
    function Turns(): (r: seq<Turn>)
      reads this
      requires Valid()
      ensures |r| <= maxTurns
      ensures |history| <= maxTurns ==> r == history
      ensures forall i :: 0 <= i < |r| ==> r[i] == history[|history| - |r| + i]
    {
      NewestShape(history, maxTurns);
      turns
    }

    /** `last_turn`: the most recently added turn, or `None` when no turn is kept. */
    function LastTurn(): (r: Option<Turn>)
      reads this
      requires Valid()
      ensures r.None? <==> history == [] || maxTurns == 0
      ensures r.Some? ==> r.value == history[|history| - 1]
    {
      NewestShape(history, maxTurns);
      if turns == [] then None else Some(turns[|turns| - 1])
    }

    /** `len(context)`: the number of turns kept, the history's length capped at `maxTurns`. */
    function Len(): (r: nat)
      reads this
      requires Valid()
      ensures r <= maxTurns && r <= |history|
      ensures r == |history| || r == maxTurns
    {
      NewestLength(history, maxTurns);
      |turns|
    }

    /** `bool(context)`: some turn is kept. */
    function IsNonEmpty(): (r: bool)
      reads this
      requires Valid()
      ensures r <==> history != [] && maxTurns > 0
    {
      NewestLength(history, maxTurns);
      |turns| > 0
    }

    /** `language_distribution`, computed by one pass over the kept turns. */
    method LanguageDistribution() returns (d: Distribution)
      ensures d == DistributionOf(turns, decayFactor)
    {
      if turns == [] {
        return Distribution([], map[]);
      }
      var turnsList := turns;
      var order: seq<string> := [];
      var weightedCounts: map<string, real> := map[];
      var totalWeight := 0.0;
      var i := 0;
      while i < |turnsList|
        invariant 0 <= i <= |turnsList|
        invariant order == LanguagesUpTo(turnsList, i)
        invariant weightedCounts == CountsUpTo(turnsList, decayFactor, i)
        invariant totalWeight == TotalWeightUpTo(turnsList, decayFactor, i)
      {
        var turn := turnsList[i];
        if turn.lang.Some? && turn.lang.value != "" && turn.lang.value != "unknown" {
          var recencyWeight := Pow(decayFactor, |turnsList| - 1 - i);
          var weight := recencyWeight * turn.confidence;
          var lang := turn.lang.value;
          assert weight == TurnWeight(turnsList, decayFactor, i);
          assert (lang in weightedCounts) == (lang in order) by {
            CountsAreWeights(turnsList, decayFactor, i);
          }
          if lang !in weightedCounts {
            weightedCounts := weightedCounts[lang := 0.0];
            order := order + [lang];
          }
          weightedCounts := weightedCounts[lang := weightedCounts[lang] + weight];
          totalWeight := totalWeight + weight;
        }
        i := i + 1;
      }
      if totalWeight > 0.0 {
        d := Distribution(order, map l | l in weightedCounts :: weightedCounts[l] / totalWeight);
        assert d == DistributionOf(turns, decayFactor) by {
          CountsAreWeights(turnsList, decayFactor, i);
        }
      } else {
        d := Distribution([], map[]);
      }
    }

    /** `get_language_streak`: walk back from the newest turn while the language stays the same. */
    method GetLanguageStreak() returns (lang: Option<string>, count: nat)
      ensures (lang, count) == StreakOf(turns)
    {
      if turns == [] {
        return None, 0;
      }
      var newest := turns[|turns| - 1];
      if newest.lang.None? || newest.lang.value == "" {
        return None, 0;
      }
      var currentLang := newest.lang.value;
      var streak := 0;
      var k := |turns|;
      assert turns[..k] == turns;
      while k > 0
        invariant 0 <= k <= |turns|
        invariant StreakLength(turns[..k], currentLang) + streak == StreakLength(turns, currentLang)
      {
        if turns[k - 1].lang == Some(currentLang) {
          assert turns[..k][..k - 1] == turns[..k - 1];
          streak := streak + 1;
          k := k - 1;
        } else {
          break;
        }
      }
      assert turns[..|turns|] == turns;
      return Some(currentLang), streak;
    }

    /** `dominant_language`: the first language of maximal weight, or `None` for an empty distribution. */
    method DominantLanguage() returns (r: Option<string>)
      ensures r == DominantOf(turns, decayFactor)
    {
      var dist := LanguageDistribution();
      if dist.order == [] {
        return None;
      }
      DistributionKeys(turns, decayFactor);
      r := Some(dist.order[FirstMaxIndex(dist.order, dist.weight)]);
    }

    /** `get_context_boost`: the language's share times 0.15 plus the streak bonus, capped at 0.3. */
    method GetContextBoost(language: string) returns (r: real)
      ensures r == BoostOf(turns, decayFactor, language)
      ensures r <= 0.3
      ensures decayFactor >= 0.0 && NonNegativeConfidences(turns) ==> 0.0 <= r
    {
      var dist := LanguageDistribution();
      if language !in dist.weight {
        r := 0.0;
      } else {
        var baseBoost := dist.weight[language] * 0.15;
        var streakLang, streakCount := GetLanguageStreak();
        if streakLang == Some(language) && streakCount >= 2 {
          var streakBonus := MinReal(streakCount as real * 0.02, 0.1);
          baseBoost := baseBoost + streakBonus;
        }
        r := MinReal(baseBoost, 0.3);
      }
      if decayFactor >= 0.0 && NonNegativeConfidences(turns) {
        BoostBounds(turns, decayFactor, language);
      }
    }

    /** `clear`: forget every turn; the distribution is then empty and there is no dominant language. */
    method Clear()
      modifies this
      ensures Valid()
      ensures turns == [] && history == []
      ensures DistributionOf(turns, decayFactor) == Distribution([], map[])
      ensures DominantOf(turns, decayFactor) == None
      ensures StreakOf(turns) == (None, 0)
    {
      turns := [];
      history := [];
      DistributionEmptyIff(turns, decayFactor);
    }
  }
}
