/** The two ingredient-name keys of the planner: the full matching key of
    App.tsx:29-40 and the weaker lowercase-and-trim key that the recipe and
    ingredient forms write (RecipeForm.tsx:61, 104, 111; IngredientForm.tsx:33). */
module Normalizer {
  import opened Text

  predicate IsPunct(c: char) {
    c == '.' || c == ',' || c == '(' || c == ')'
  }

  /** `replace(/[.,()]/g, '')` */
  function RemovePunct(s: string): (r: string)
    ensures |r| <= |s|
  {
    if s == [] then []
    else if IsPunct(s[0]) then RemovePunct(s[1..])
    else [s[0]] + RemovePunct(s[1..])
  }

  /** `replace(/\s+/g, ' ')`: every maximal run of whitespace becomes one space. */
  function CollapseSpaces(s: string): (r: string)
    decreases |s|
  {
    if s == [] then []
    else if IsSpace(s[0]) then [' '] + CollapseSpaces(TrimStart(s[1..]))
    else [s[0]] + CollapseSpaces(s[1..])
  }

  /** `replace(/suf$/, rep)` */
  function ReplaceSuffix(s: string, suf: string, rep: string): string {
    if EndsWith(s, suf) then s[..|s| - |suf|] + rep else s
  }

  /** `replace(/s$/, cb)` whose callback keeps the `s` when the whole string
      ends in "ss" or "us". */
  function DropFinalS(s: string): string {
    if EndsWith(s, "s") && !EndsWith(s, "ss") && !EndsWith(s, "us") then s[..|s| - 1] else s
  }

  /** Punctuation removal and whitespace collapsing on an already lower-cased,
      trimmed name. */
  function Cleaned(key: string): string {
    CollapseSpaces(RemovePunct(key))
  }

  /** The three ordered plural rewrites and the final-`s` rule. */
  function Singular(s: string): string {
    DropFinalS(ReplaceSuffix(ReplaceSuffix(ReplaceSuffix(s, "tomatoes", "tomato"), "potatoes", "potato"), "ies", "y"))
  }

  /** `normalizeIngredientName`: the full matching key. */
  function Normalize(name: string): string {
    if name == "" then "" else Singular(Cleaned(Trim(ToLower(name))))
  }

  /** `name.toLowerCase().trim()`: the weaker key written by the forms. */
  function SimpleKey(name: string): string {
    Trim(ToLower(name))
  }

  predicate NoPunct(s: string) {
    forall c :: c in s ==> !IsPunct(c)
  }

  predicate NoDoubleSpace(s: string) {
    forall i :: 0 < i < |s| ==> !IsSpace(s[i - 1]) || !IsSpace(s[i])
  }

  /** The shape of every normalised key. */
  predicate Clean(s: string) {
    NoUpper(s) && NoPunct(s) && NoDoubleSpace(s)
  }

  // ---------------------------------------------------------------------
  // The steps one by one.

  lemma {:induction false} RemovePunctChars(s: string)
    ensures forall c :: c in RemovePunct(s) ==> c in s && !IsPunct(c)
  {
    if s != [] {
      RemovePunctChars(s[1..]);
    }
  }

  lemma {:induction false} CollapseSpacesFacts(s: string)
    ensures var r := CollapseSpaces(s);
      && |r| <= |s|
      && (r == [] <==> s == [])
      && (r != [] ==> (IsSpace(r[0]) <==> IsSpace(s[0])))
      && NoDoubleSpace(r)
      && (forall c :: c in r ==> c == ' ' || c in s)
    decreases |s|
  {
    if s != [] {
      var r := CollapseSpaces(s);
      if IsSpace(s[0]) {
        var t := TrimStart(s[1..]);
        TrimStartShape(s[1..]);
        CollapseSpacesFacts(t);
        var u := CollapseSpaces(t);
        assert r == [' '] + u;
        forall c | c in t ensures c in s {
          var i :| 0 <= i < |t| && t[i] == c;
          assert s[|s| - |t| + i] == c;
        }
        forall i | 0 < i < |r| ensures !IsSpace(r[i - 1]) || !IsSpace(r[i]) {
          if i > 1 {
            assert r[i - 1] == u[i - 2] && r[i] == u[i - 1];
          }
        }
      } else {
        CollapseSpacesFacts(s[1..]);
        var u := CollapseSpaces(s[1..]);
        assert r == [s[0]] + u;
        forall i | 0 < i < |r| ensures !IsSpace(r[i - 1]) || !IsSpace(r[i]) {
          if i > 1 {
            assert r[i - 1] == u[i - 2] && r[i] == u[i - 1];
          }
        }
      }
    }
  }

  /** After lower-casing, trimming, punctuation removal and collapsing, the
      string has no capital letter, no `.`, `,`, `(` or `)`, and no two
      whitespace characters in a row. */
  lemma CleanedIsClean(name: string)
    ensures Clean(Cleaned(Trim(ToLower(name))))
    ensures |Cleaned(Trim(ToLower(name)))| <= |name|
  {
    var a := ToLower(name);
    ToLowerNoUpper(name);
    var b := Trim(a);
    TrimChars(a);
    var c := RemovePunct(b);
    RemovePunctChars(b);
    CollapseSpacesFacts(c);
  }

  lemma ReplaceSuffixKeepsClean(s: string, suf: string, rep: string)
    requires Clean(s)
    requires forall c :: c in rep ==> 'a' <= c <= 'z'
    ensures Clean(ReplaceSuffix(s, suf, rep))
  {
    if EndsWith(s, suf) {
      var p := s[..|s| - |suf|];
      var r := p + rep;
      forall c | c in r ensures !IsUpper(c) && !IsPunct(c) {
        if c !in rep {
          var i :| 0 <= i < |p| && p[i] == c;
          assert s[i] == c;
        }
      }
      forall i | 0 < i < |r| ensures !IsSpace(r[i - 1]) || !IsSpace(r[i]) {
        if i >= |p| {
          assert r[i] in rep;
        } else {
          assert r[i - 1] == s[i - 1] && r[i] == s[i];
        }
      }
    }
  }

  lemma DropFinalSKeepsClean(s: string)
    requires Clean(s)
    ensures Clean(DropFinalS(s))
  {
    var r := DropFinalS(s);
    if r != s {
      assert r == s[..|s| - 1];
      forall c | c in r ensures !IsUpper(c) && !IsPunct(c) {
        var i :| 0 <= i < |r| && r[i] == c;
        assert s[i] == c;
      }
      forall i | 0 < i < |r| ensures !IsSpace(r[i - 1]) || !IsSpace(r[i]) {
        assert r[i - 1] == s[i - 1] && r[i] == s[i];
      }
    }
  }

  // ---------------------------------------------------------------------
  // Properties of the full key.

  /** A normalised key contains no capital letter, none of `.`, `,`, `(`,
      `)`, no two whitespace characters in a row, and is never longer than
      the name it came from. */
  lemma NormalizeIsClean(name: string)
    ensures Clean(Normalize(name))
    ensures |Normalize(name)| <= |name|
  {
    if name != "" {
      var c := Cleaned(Trim(ToLower(name)));
      CleanedIsClean(name);
      var t1 := ReplaceSuffix(c, "tomatoes", "tomato");
      ReplaceSuffixKeepsClean(c, "tomatoes", "tomato");
      var t2 := ReplaceSuffix(t1, "potatoes", "potato");
      ReplaceSuffixKeepsClean(t1, "potatoes", "potato");
      var t3 := ReplaceSuffix(t2, "ies", "y");
      ReplaceSuffixKeepsClean(t2, "ies", "y");
      DropFinalSKeepsClean(t3);
    }
  }

  lemma DropFinalSFinal(t: string)
    ensures var r := DropFinalS(t); EndsWith(r, "s") ==> EndsWith(r, "ss") || EndsWith(r, "us")
  {
    if EndsWith(t, "s") && !EndsWith(t, "ss") && !EndsWith(t, "us") {
      var r := t[..|t| - 1];
      if |t| >= 2 {
        assert t[|t| - 2..] != "ss";
        assert r[|r| - 1] == t[|t| - 2] != 's';
        NotEndsWithAt(r, "s", 0);
      }
    }
  }

  /** The final-`s` rule: a key that ends in `s` ends in "ss" or "us". */
  lemma NormalizeFinalS(name: string)
    ensures EndsWith(Normalize(name), "s") ==> EndsWith(Normalize(name), "ss") || EndsWith(Normalize(name), "us")
  {
    if name != "" {
      var c := Cleaned(Trim(ToLower(name)));
      DropFinalSFinal(ReplaceSuffix(ReplaceSuffix(ReplaceSuffix(c, "tomatoes", "tomato"), "potatoes", "potato"), "ies", "y"));
    }
  }

  /** The key only depends on the lower-cased, trimmed name: two names with
      the same weak key have the same full key. */
  lemma NormalizeRefinesSimpleKey(a: string, b: string)
    requires SimpleKey(a) == SimpleKey(b)
    ensures Normalize(a) == Normalize(b)
  {
    assert Normalize(a) == Singular(Cleaned(SimpleKey(a))) by {
      if a == "" {
        assert SimpleKey(a) == "";
      }
    }
    assert Normalize(b) == Singular(Cleaned(SimpleKey(b))) by {
      if b == "" {
        assert SimpleKey(b) == "";
      }
    }
  }

  /** Trimming a name first (as the grocery list's quick-add does) does not
      change its key. */
  lemma NormalizeOfTrimmed(name: string)
    ensures Normalize(Trim(name)) == Normalize(name)
  {
    ToLowerTrim(name);
    TrimIdempotent(ToLower(name));
    NormalizeRefinesSimpleKey(Trim(name), name);
  }

  predicate IsLetter(c: char) {
    'a' <= c <= 'z' || 'A' <= c <= 'Z'
  }

  lemma {:induction false} RemovePunctKeeps(s: string)
    requires NoPunct(s)
    ensures RemovePunct(s) == s
  {
    if s != [] {
      RemovePunctKeeps(s[1..]);
    }
  }

  lemma {:induction false} CollapseSpacesKeeps(s: string)
    requires forall c :: c in s ==> !IsSpace(c)
    ensures CollapseSpaces(s) == s
  {
    if s != [] {
      CollapseSpacesKeeps(s[1..]);
    }
  }

  /** For a one-word name made of letters only, the key is the plural rules
      applied to the lower-cased word. */
  lemma WordKey(w: string)
    requires w != "" && forall c :: c in w ==> IsLetter(c)
    ensures Normalize(w) == Singular(ToLower(w))
  {
    var l := ToLower(w);
    forall c | c in l ensures !IsSpace(c) && !IsPunct(c) {
      var i :| 0 <= i < |l| && l[i] == c;
      assert w[i] in w;
    }
    TrimStartOfTrimmed(l);
    TrimEndOfTrimmed(l);
    RemovePunctKeeps(l);
    CollapseSpacesKeeps(l);
  }
}
