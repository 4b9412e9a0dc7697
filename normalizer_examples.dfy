/** Worked examples of the full ingredient key (App.tsx:29-40). Literal
    strings are evaluated one step at a time, each step in a lemma of its own. */
module NormalizerExamples {
  import opened Text
  import opened Normalizer

  lemma TomatoesLower()
    ensures ToLower("Tomatoes") == "tomatoes"
  {
  }

  lemma TomatoesRewrites()
    ensures ReplaceSuffix(ReplaceSuffix(ReplaceSuffix("tomatoes", "tomatoes", "tomato"), "potatoes", "potato"), "ies", "y") == "tomato"
  {
    assert EndsWith("tomatoes", "tomatoes");
    assert ReplaceSuffix("tomatoes", "tomatoes", "tomato") == "tomato";
    assert ReplaceSuffix("tomato", "potatoes", "potato") == "tomato";
    NotEndsWithAt("tomato", "ies", 0);
    assert ReplaceSuffix("tomato", "ies", "y") == "tomato";
  }

  lemma TomatoesFinalS()
    ensures DropFinalS("tomato") == "tomato"
  {
    NotEndsWithAt("tomato", "s", 0);
    NotEndsWithAt("tomato", "ss", 0);
    NotEndsWithAt("tomato", "us", 0);
  }

  lemma TomatoesSingular()
    ensures Singular("tomatoes") == "tomato"
  {
    TomatoesRewrites();
    TomatoesFinalS();
  }

  /** A trailing "tomatoes" becomes "tomato". */
  lemma TomatoesExample()
    ensures Normalize("Tomatoes") == "tomato"
  {
    WordKey("Tomatoes");
    TomatoesLower();
    TomatoesSingular();
  }

  lemma PotatoesLower()
    ensures ToLower("Potatoes") == "potatoes"
  {
  }

  lemma PotatoesRewrites()
    ensures ReplaceSuffix(ReplaceSuffix(ReplaceSuffix("potatoes", "tomatoes", "tomato"), "potatoes", "potato"), "ies", "y") == "potato"
  {
    NotEndsWithAt("potatoes", "tomatoes", 5);
    assert ReplaceSuffix("potatoes", "tomatoes", "tomato") == "potatoes";
    assert EndsWith("potatoes", "potatoes");
    assert ReplaceSuffix("potatoes", "potatoes", "potato") == "potato";
    NotEndsWithAt("potato", "ies", 0);
    assert ReplaceSuffix("potato", "ies", "y") == "potato";
  }

  lemma PotatoesFinalS()
    ensures DropFinalS("potato") == "potato"
  {
    NotEndsWithAt("potato", "s", 0);
    NotEndsWithAt("potato", "ss", 0);
    NotEndsWithAt("potato", "us", 0);
  }

  lemma PotatoesSingular()
    ensures Singular("potatoes") == "potato"
  {
    PotatoesRewrites();
    PotatoesFinalS();
  }

  /** A trailing "potatoes" becomes "potato". */
  lemma PotatoesExample()
    ensures Normalize("Potatoes") == "potato"
  {
    WordKey("Potatoes");
    PotatoesLower();
    PotatoesSingular();
  }

  lemma BerriesLower()
    ensures ToLower("Berries") == "berries"
  {
  }

  lemma BerriesRewrites()
    ensures ReplaceSuffix(ReplaceSuffix(ReplaceSuffix("berries", "tomatoes", "tomato"), "potatoes", "potato"), "ies", "y") == "berry"
  {
    assert ReplaceSuffix("berries", "tomatoes", "tomato") == "berries";
    assert ReplaceSuffix("berries", "potatoes", "potato") == "berries";
    assert EndsWith("berries", "ies");
    assert ReplaceSuffix("berries", "ies", "y") == "berry";
  }

  lemma BerriesFinalS()
    ensures DropFinalS("berry") == "berry"
  {
    NotEndsWithAt("berry", "s", 0);
    NotEndsWithAt("berry", "ss", 0);
    NotEndsWithAt("berry", "us", 0);
  }

  lemma BerriesSingular()
    ensures Singular("berries") == "berry"
  {
    BerriesRewrites();
    BerriesFinalS();
  }

  /** A trailing "ies" becomes "y". */
  lemma BerriesExample()
    ensures Normalize("Berries") == "berry"
  {
    WordKey("Berries");
    BerriesLower();
    BerriesSingular();
  }

  lemma EggsLower()
    ensures ToLower("Eggs") == "eggs"
  {
  }

  lemma EggsRewrites()
    ensures ReplaceSuffix(ReplaceSuffix(ReplaceSuffix("eggs", "tomatoes", "tomato"), "potatoes", "potato"), "ies", "y") == "eggs"
  {
    assert ReplaceSuffix("eggs", "tomatoes", "tomato") == "eggs";
    assert ReplaceSuffix("eggs", "potatoes", "potato") == "eggs";
    NotEndsWithAt("eggs", "ies", 1);
    assert ReplaceSuffix("eggs", "ies", "y") == "eggs";
  }

  lemma EggsFinalS()
    ensures DropFinalS("eggs") == "egg"
  {
    assert EndsWith("eggs", "s");
    NotEndsWithAt("eggs", "ss", 1);
    NotEndsWithAt("eggs", "us", 1);
  }

  lemma EggsSingular()
    ensures Singular("eggs") == "egg"
  {
    EggsRewrites();
    EggsFinalS();
  }

  /** A single final "s" is dropped. */
  lemma EggsExample()
    ensures Normalize("Eggs") == "egg"
  {
    WordKey("Eggs");
    EggsLower();
    EggsSingular();
  }

  lemma GlassLower()
    ensures ToLower("Glass") == "glass"
  {
  }

  lemma GlassRewrites()
    ensures ReplaceSuffix(ReplaceSuffix(ReplaceSuffix("glass", "tomatoes", "tomato"), "potatoes", "potato"), "ies", "y") == "glass"
  {
    assert ReplaceSuffix("glass", "tomatoes", "tomato") == "glass";
    assert ReplaceSuffix("glass", "potatoes", "potato") == "glass";
    NotEndsWithAt("glass", "ies", 1);
    assert ReplaceSuffix("glass", "ies", "y") == "glass";
  }

  lemma GlassFinalS()
    ensures DropFinalS("glass") == "glass"
  {
    assert EndsWith("glass", "s");
    assert EndsWith("glass", "ss");
    NotEndsWithAt("glass", "us", 1);
  }

  lemma GlassSingular()
    ensures Singular("glass") == "glass"
  {
    GlassRewrites();
    GlassFinalS();
  }

  /** A final "ss" is kept. */
  lemma GlassExample()
    ensures Normalize("Glass") == "glass"
  {
    WordKey("Glass");
    GlassLower();
    GlassSingular();
  }

  lemma HummusLower()
    ensures ToLower("Hummus") == "hummus"
  {
  }

  lemma HummusRewrites()
    ensures ReplaceSuffix(ReplaceSuffix(ReplaceSuffix("hummus", "tomatoes", "tomato"), "potatoes", "potato"), "ies", "y") == "hummus"
  {
    assert ReplaceSuffix("hummus", "tomatoes", "tomato") == "hummus";
    assert ReplaceSuffix("hummus", "potatoes", "potato") == "hummus";
    NotEndsWithAt("hummus", "ies", 1);
    assert ReplaceSuffix("hummus", "ies", "y") == "hummus";
  }

  lemma HummusFinalS()
    ensures DropFinalS("hummus") == "hummus"
  {
    assert EndsWith("hummus", "s");
    NotEndsWithAt("hummus", "ss", 1);
    assert EndsWith("hummus", "us");
  }

  lemma HummusSingular()
    ensures Singular("hummus") == "hummus"
  {
    HummusRewrites();
    HummusFinalS();
  }

  /** A final "us" is kept. */
  lemma HummusExample()
    ensures Normalize("Hummus") == "hummus"
  {
    WordKey("Hummus");
    HummusLower();
    HummusSingular();
  }

  lemma PunctuationLower()
    ensures ToLower("  Avocado. ") == "  avocado. "
  {
  }

  lemma PunctuationTrim()
    ensures Trim("  avocado. ") == "avocado."
  {
    assert TrimStart("  avocado. ") == "avocado. ";
    assert TrimEnd("avocado. ") == "avocado.";
  }

  lemma PunctuationRemovePunct()
    ensures RemovePunct("avocado.") == "avocado"
  {
    assert RemovePunct(".") == "";
    assert RemovePunct("o.") == "o";
    assert RemovePunct("do.") == "do";
    assert RemovePunct("ado.") == "ado";
    assert RemovePunct("cado.") == "cado";
    assert RemovePunct("ocado.") == "ocado";
    assert RemovePunct("vocado.") == "vocado";
  }

  lemma PunctuationCollapse()
    ensures CollapseSpaces("avocado") == "avocado"
  {
    assert CollapseSpaces("o") == "o";
    assert CollapseSpaces("do") == "do";
    assert CollapseSpaces("ado") == "ado";
    assert CollapseSpaces("cado") == "cado";
    assert CollapseSpaces("ocado") == "ocado";
    assert CollapseSpaces("vocado") == "vocado";
  }

  lemma PunctuationCleaned()
    ensures Cleaned("avocado.") == "avocado"
  {
    PunctuationRemovePunct();
    PunctuationCollapse();
  }

  lemma PunctuationRewrites()
    ensures ReplaceSuffix(ReplaceSuffix(ReplaceSuffix("avocado", "tomatoes", "tomato"), "potatoes", "potato"), "ies", "y") == "avocado"
  {
    assert ReplaceSuffix("avocado", "tomatoes", "tomato") == "avocado";
    assert ReplaceSuffix("avocado", "potatoes", "potato") == "avocado";
    NotEndsWithAt("avocado", "ies", 0);
    assert ReplaceSuffix("avocado", "ies", "y") == "avocado";
  }

  lemma PunctuationFinalS()
    ensures DropFinalS("avocado") == "avocado"
  {
    NotEndsWithAt("avocado", "s", 0);
    NotEndsWithAt("avocado", "ss", 0);
    NotEndsWithAt("avocado", "us", 0);
  }

  lemma PunctuationSingular()
    ensures Singular("avocado") == "avocado"
  {
    PunctuationRewrites();
    PunctuationFinalS();
  }

  /** Surrounding whitespace and a trailing full stop are removed. */
  lemma PunctuationExample()
    ensures Normalize("  Avocado. ") == "avocado"
  {
    PunctuationLower();
    PunctuationTrim();
    PunctuationCleaned();
    PunctuationSingular();
  }

  lemma TrailingLower()
    ensures ToLower("a .") == "a ."
  {
  }

  lemma TrailingTrim()
    ensures Trim("a .") == "a ."
  {
    assert TrimStart("a .") == "a .";
    assert TrimEnd("a .") == "a .";
  }

  lemma TrailingRemovePunct()
    ensures RemovePunct("a .") == "a "
  {
    assert RemovePunct(".") == "";
    assert RemovePunct(" .") == " ";
  }

  lemma TrailingCollapse()
    ensures CollapseSpaces("a ") == "a "
  {
    assert CollapseSpaces(" ") == " ";
  }

  lemma TrailingCleaned()
    ensures Cleaned("a .") == "a "
  {
    TrailingRemovePunct();
    TrailingCollapse();
  }

  lemma TrailingRewrites()
    ensures ReplaceSuffix(ReplaceSuffix(ReplaceSuffix("a ", "tomatoes", "tomato"), "potatoes", "potato"), "ies", "y") == "a "
  {
    assert ReplaceSuffix("a ", "tomatoes", "tomato") == "a ";
    assert ReplaceSuffix("a ", "potatoes", "potato") == "a ";
    assert ReplaceSuffix("a ", "ies", "y") == "a ";
  }

  lemma TrailingFinalS()
    ensures DropFinalS("a ") == "a "
  {
    NotEndsWithAt("a ", "s", 0);
    NotEndsWithAt("a ", "ss", 0);
    NotEndsWithAt("a ", "us", 0);
  }

  lemma TrailingSingular()
    ensures Singular("a ") == "a "
  {
    TrailingRewrites();
    TrailingFinalS();
  }

  lemma RetrimmedLower()
    ensures ToLower("a ") == "a "
  {
  }

  lemma RetrimmedTrim()
    ensures Trim("a ") == "a"
  {
    assert TrimStart("a ") == "a ";
    assert TrimEnd("a ") == "a";
  }

  lemma RetrimmedRemovePunct()
    ensures RemovePunct("a") == "a"
  {
  }

  lemma RetrimmedCollapse()
    ensures CollapseSpaces("a") == "a"
  {
  }

  lemma RetrimmedCleaned()
    ensures Cleaned("a") == "a"
  {
    RetrimmedRemovePunct();
    RetrimmedCollapse();
  }

  lemma RetrimmedRewrites()
    ensures ReplaceSuffix(ReplaceSuffix(ReplaceSuffix("a", "tomatoes", "tomato"), "potatoes", "potato"), "ies", "y") == "a"
  {
    assert ReplaceSuffix("a", "tomatoes", "tomato") == "a";
    assert ReplaceSuffix("a", "potatoes", "potato") == "a";
    assert ReplaceSuffix("a", "ies", "y") == "a";
  }

  lemma RetrimmedFinalS()
    ensures DropFinalS("a") == "a"
  {
    NotEndsWithAt("a", "s", 0);
  }

  lemma RetrimmedSingular()
    ensures Singular("a") == "a"
  {
    RetrimmedRewrites();
    RetrimmedFinalS();
  }

  /** The key is not idempotent: punctuation is removed after trimming, so a space can be left at the end and only a second pass trims it. */
  lemma NotIdempotent()
    ensures Normalize("a .") == "a "
    ensures Normalize(Normalize("a .")) == "a"
  {
    TrailingLower();
    TrailingTrim();
    TrailingCleaned();
    TrailingSingular();
    RetrimmedLower();
    RetrimmedTrim();
    RetrimmedCleaned();
    RetrimmedSingular();
  }
}
