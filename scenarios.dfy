/** Replays of the repository's conversation-context tests against the contracts, and a cache scenario of the model's own. */
module Scenarios {
  import opened Wrappers
  import opened ConversationModel
  import opened Conversation
  import opened Cache

  /** A new context with default settings keeps the one turn added, as the newest. */
  method AddOneTurn() {
    var context := new ConversationContext();
    context.AddTurn("Bonjour!", Some("fr"), 0.95, 0.0);
    assert context.Len() == 1;
    var last := context.LastTurn();
    assert last.Some? && last.value.lang == Some("fr");
  }

  /** Only the newest `maxTurns` turns are kept: five turns into a context of three leave the last three. */
  method MaxTurnsBound() {
    var context := new ConversationContext(3);
    var i := 0;
    while i < 5
      invariant 0 <= i <= 5
      invariant context.Valid() && context.maxTurns == 3 && |context.history| == i
      modifies context
    {
      context.AddTurn("Text", Some("en"), 0.9, i as real);
      i := i + 1;
    }
    assert context.Len() == 3;
    assert context.Turns()[0] == context.history[2];
  }

  /** With the default settings an English and a French turn both appear in the distribution, whose values sum to 1. */
  method DistributionOfTwoLanguages() {
    var context := new ConversationContext();
    context.AddTurn("Hello", Some("en"), 0.9, 0.0);
    context.AddTurn("Bonjour", Some("fr"), 0.9, 1.0);
    var ts := context.turns;
    assert ts == [Turn("Hello", Some("en"), 0.9, 0.0), Turn("Bonjour", Some("fr"), 0.9, 1.0)];
    assert LanguagesUpTo(ts, 2) == ["en", "fr"] by {
      assert LanguagesUpTo(ts, 1) == ["en"];
    }
    assert TotalWeightUpTo(ts, 0.9, 2) > 0.0 by {
      assert TotalWeightUpTo(ts, 0.9, 1) > 0.0;
    }
    var dist := context.LanguageDistribution();
    assert "en" in dist.weight && "fr" in dist.weight;
    DistributionSumsToOne(ts, 0.9);
    assert SumOf(dist.order, dist.weight) == 1.0;
  }

  /** With decay 0.5, an English turn followed by a French turn of equal confidence weighs French higher. */
  method RecencyWeighting() {
    var context := new ConversationContext(2, 0.5);
    context.AddTurn("Hello", Some("en"), 0.9, 0.0);
    context.AddTurn("Bonjour", Some("fr"), 0.9, 1.0);
    var dist := context.LanguageDistribution();
    LaterLanguageOutweighsEarlier(context.turns[0], context.turns[1], 0.5);
    assert context.turns == [context.turns[0], context.turns[1]];
    assert dist.weight["fr"] > dist.weight["en"];
    DistributionSumsToOne(context.turns, 0.5);
    assert SumOf(dist.order, dist.weight) == 1.0;
  }

  /** Three English turns in a context of five form a streak of three. */
  method LanguageStreak() {
    var context := new ConversationContext(5);
    context.AddTurn("Hello", Some("en"), 0.9, 0.0);
    context.AddTurn("How are you?", Some("en"), 0.9, 1.0);
    context.AddTurn("Nice to meet you", Some("en"), 0.9, 2.0);
    var lang, streak := context.GetLanguageStreak();
    StreakIsLongestSuffix(context.turns);
    assert lang == Some("en");
    assert |context.turns| == 3;
    assert streak == 3;
  }

  /**
   * With the default two-turn bound the English turn is evicted by the two
   * French ones that follow, so French is dominant.
   */
  method DominantAfterEviction() {
    var context := new ConversationContext();
    context.AddTurn("Hello", Some("en"), 0.9, 0.0);
    context.AddTurn("Bonjour", Some("fr"), 0.95, 1.0);
    context.AddTurn("Comment ca va?", Some("fr"), 0.9, 2.0);
    var ts := context.turns;
    assert ts == [Turn("Bonjour", Some("fr"), 0.95, 1.0), Turn("Comment ca va?", Some("fr"), 0.9, 2.0)];
    assert LanguagesUpTo(ts, 1) == ["fr"];
    assert LanguagesUpTo(ts, 2) == ["fr"];
    assert TotalWeightUpTo(ts, 0.9, 1) > 0.0;
    assert TotalWeightUpTo(ts, 0.9, 2) > 0.0;
    var dominant := context.DominantLanguage();
    assert dominant == Some("fr");
  }

  /** Two French turns give French a positive boost, and a language absent from the history gets none. */
  method ContextBoost() {
    var context := new ConversationContext();
    context.AddTurn("Bonjour", Some("fr"), 0.9, 0.0);
    context.AddTurn("Comment ca va?", Some("fr"), 0.9, 1.0);
    var ts := context.turns;
    assert ts == [Turn("Bonjour", Some("fr"), 0.9, 0.0), Turn("Comment ca va?", Some("fr"), 0.9, 1.0)];
    assert LanguagesUpTo(ts, 2) == ["fr"] by {
      assert LanguagesUpTo(ts, 1) == ["fr"];
    }
    assert LangWeightUpTo(ts, 0.9, "fr", 2) > 0.0 by {
      assert LangWeightUpTo(ts, 0.9, "fr", 1) > 0.0;
    }
    assert TotalWeightUpTo(ts, 0.9, 2) > 0.0 by {
      assert TotalWeightUpTo(ts, 0.9, 1) > 0.0;
    }
    assert DistributionOf(ts, 0.9).weight["fr"] > 0.0;
    BoostBounds(ts, 0.9, "fr");
    StreakBonusRange(ts, "fr");
    var boost := context.GetContextBoost("fr");
    assert boost > 0.0;
    DistributionKeys(ts, context.decayFactor);
    assert "es" !in DistributionOf(ts, context.decayFactor).weight;
    var noBoost := context.GetContextBoost("es");
    assert noBoost == 0.0;
  }

  /** A new context has no turns, no dominant language, an empty distribution and the streak `(None, 0)`. */
  method EmptyContext() {
    var context := new ConversationContext();
    assert context.Len() == 0;
    var dominant := context.DominantLanguage();
    assert dominant == None;
    var dist := context.LanguageDistribution();
    assert dist == Distribution([], map[]);
    var lang, streak := context.GetLanguageStreak();
    assert (lang, streak) == (None, 0);
  }

  /** After `Clear` a context is empty and has no dominant language. */
  method ClearForgets() {
    var context := new ConversationContext();
    context.AddTurn("Hello", Some("en"), 0.9, 0.0);
    context.Clear();
    assert context.Len() == 0 && !context.IsNonEmpty();
    var dominant := context.DominantLanguage();
    assert dominant == None;
  }

  /** A new cache is empty with no lookups; a stored `None` is found but counts as a miss. */
  method CacheCounters() {
    var cache := new DetectionCache<string>(2);
    assert cache.Stats().hitRate == 0.0;
    var ok := cache.Put("ok", Some("en"));
    var r := cache.Get("ok");
    assert r == Some("en") && cache.hits == 1;
    ok := cache.Put("thanks", None);
    assert cache.Contains("thanks");
    r := cache.Get("thanks");
    assert r == None && cache.misses == 1;
    assert cache.Stats().hitRate * 2.0 == 1.0;
    cache.Clear();
    assert cache.Size() == 0 && cache.hits == 0 && cache.misses == 0;
  }
}
