/**
 * Article-insensitive ordering (Anarthrous.swift): titles are compared after
 * dropping one leading "A", "An" or "The" and the white space after it, so that
 * "The Planets" sorts under P.
 */
module Anarthrous {
  import opened Wrappers
  import opened Text
  import opened Records

  /** `\s` of the regular expression, over ASCII: space, tab, newline, return, form feed. */
  predicate IsSpace(c: char) {
    c == ' ' || c == '\t' || c == '\n' || c == '\r' || c as int == 12
  }

  /** Does `s` open with `word`, in any case, followed by at least one space character? */
  predicate OpensWith(s: string, word: string) {
    |s| > |word| && Lower(s[..|word|]) == word && IsSpace(s[|word|])
  }

  /** `^(A|An|The)\s+` with `.caseInsensitive` matches `s`. */
  predicate HasArticle(s: string) {
    OpensWith(s, "a") || OpensWith(s, "an") || OpensWith(s, "the")
  }

  /** The length of the run of space characters that opens `s`. */
  function SpaceRun(s: string): (n: nat)
    ensures n <= |s|
    ensures forall i :: 0 <= i < n ==> IsSpace(s[i])
    ensures n < |s| ==> !IsSpace(s[n])
  {
    if |s| > 0 && IsSpace(s[0]) then 1 + SpaceRun(s[1..]) else 0
  }

  /**
   * The length of the regular expression's match at the start of `s`, or 0:
   * the alternatives are tried in order and `\s+` takes the whole run of spaces.
   */
  function ArticleMatchLength(s: string): (n: nat)
    ensures n <= |s|
  {
    if OpensWith(s, "a") then 1 + SpaceRun(s[1..])
    else if OpensWith(s, "an") then 2 + SpaceRun(s[2..])
    else if OpensWith(s, "the") then 3 + SpaceRun(s[3..])
    else 0
  }

  /** `removeArticle(from:)`: what follows the match, or `s` itself when nothing matches. */
  function RemoveArticle(s: string): (r: string)
    ensures |r| <= |s| && r == s[|s| - |r|..]
  {
    s[ArticleMatchLength(s)..]
  }

  /** The two leading words the alternatives stand for cannot both open a title. */
  lemma ArticlesExclusive(s: string)
    ensures !(OpensWith(s, "a") && OpensWith(s, "an"))
    ensures !(OpensWith(s, "a") && OpensWith(s, "the"))
    ensures !(OpensWith(s, "an") && OpensWith(s, "the"))
  {
    if OpensWith(s, "a") && |s| > 2 {
      assert Lower(s[..2])[1] == LowerChar(s[1]);
    }
    if |s| > 3 {
      assert Lower(s[..1])[0] == LowerChar(s[0]) == Lower(s[..3])[0];
      assert Lower(s[..2])[0] == LowerChar(s[0]);
    }
  }

  /** A title without a leading article comes back unchanged, and only such a title. */
  lemma RemoveArticleUnchanged(s: string)
    ensures RemoveArticle(s) == s <==> !HasArticle(s)
  {
    if HasArticle(s) {
      assert |RemoveArticle(s)| < |s|;
    }
  }

  /**
   * When a title opens with an article, the result is what follows the article
   * and the whole run of space characters after it.
   */
  lemma RemoveArticleStrips(s: string, w: string)
    requires w in ["a", "an", "the"]
    requires OpensWith(s, w)
    ensures RemoveArticle(s) == s[|w| + SpaceRun(s[|w|..])..]
    ensures RemoveArticle(s) == [] || !IsSpace(RemoveArticle(s)[0])
  {
    ArticlesExclusive(s);
  }

  /** "an  apple" loses the article and both spaces. */
  lemma RemoveArticleExampleAn()
    ensures RemoveArticle("an  apple") == "apple"
  {
    var s := "an  apple";
    assert Lower(s[..2]) == "an";
    assert s[2..] == "  apple" && s[3..] == " apple" && s[4..] == "apple";
    assert SpaceRun(s[4..]) == 0;
    assert SpaceRun(s[3..]) == 1;
  }

  /** "The " and the space after it go from a title that does not open with a space. */
  lemma RemoveArticleThe(t: string)
    requires t == [] || !IsSpace(t[0])
    ensures RemoveArticle("The " + t) == t
  {
    var s := "The " + t;
    assert s[..1] == "T" && s[..2] == "Th" && s[..3] == "The";
    assert Lower(s[..3]) == "the";
    assert Lower(s[..1])[0] == 't' && Lower(s[..2])[0] == 't';
    assert s[3..][1..] == t;
    assert s[4..] == t;
  }

  /** Only one article goes: "The A Cat" keeps its "A". */
  lemma RemoveArticleExampleOnce()
    ensures RemoveArticle("The A Cat") == "A Cat"
  {
    RemoveArticleThe("A Cat");
    assert "The " + "A Cat" == "The A Cat";
  }

  /** Words that merely begin like an article are untouched. */
  lemma RemoveArticleExampleWords()
    ensures RemoveArticle("Another") == "Another"
    ensures RemoveArticle("Theme") == "Theme"
  {
    assert !IsSpace("Another"[1]) && !IsSpace("Another"[2]);
    assert Lower("Another"[..3])[0] == 'a';
    assert !IsSpace("Theme"[3]);
    assert Lower("Theme"[..1])[0] == 't' && Lower("Theme"[..2])[0] == 't';
  }

  // ---------------------------------------------------------------- the Character offset as written

  /**
   * `index(_:offsetBy:)` on a `String`: `k` Characters on from position `i`,
   * or `None` where Swift traps because the offset runs past the end.
   */
  function OffsetByCharacters(s: string, i: nat, k: nat): (r: Option<nat>)
    requires i <= |s|
    ensures r.Some? ==> i + k <= r.value <= |s|
    decreases k
  {
    if k == 0 then Some(i)
    else if i == |s| then None
    else OffsetByCharacters(s, CharacterEnd(s, i), k - 1)
  }

  /**
   * `removeArticle(from:)` as written: the match's `NSRange` length counts
   * UTF-16 units (here one per character of the match, which is ASCII), but
   * the end index is found by moving that many Characters on. `None` is the
   * trap when that runs past the end of the title.
   */
  function RemoveArticleAsWritten(s: string): (r: Option<string>)
    ensures r.Some? ==> |r.value| <= |s| && r.value == s[|s| - |r.value|..]
    ensures !HasArticle(s) ==> r == Some(s)
  {
    match OffsetByCharacters(s, 0, ArticleMatchLength(s))
    case None => None
    case Some(e) => Some(s[e..])
  }

  /** Where every Character is one character, `k` Characters are `k` characters. */
  lemma {:induction false} OffsetBySingleCharacters(s: string, i: nat, k: nat)
    requires i + k <= |s|
    requires forall j :: 0 <= j < |s| - 1 ==> !(s[j] == '\r' && s[j + 1] == '\n')
    requires forall j :: 0 <= j < |s| ==> !IsExtend(s[j])
    ensures OffsetByCharacters(s, i, k) == Some(i + k)
    decreases k
  {
    if k > 0 {
      assert CharacterEnd(s, i) == i + 1 by {
        if i + 1 < |s| {
          assert s[i + 1..][0] == s[i + 1];
        }
      }
      OffsetBySingleCharacters(s, i + 1, k - 1);
    }
  }

  /**
   * For a title without "\r\n" and without joining characters, the code as
   * written removes exactly the match, as `RemoveArticle` does.
   */
  lemma RemoveArticleAsWrittenAgrees(s: string)
    requires forall j :: 0 <= j < |s| - 1 ==> !(s[j] == '\r' && s[j + 1] == '\n')
    requires forall j :: 0 <= j < |s| ==> !IsExtend(s[j])
    ensures RemoveArticleAsWritten(s) == Some(RemoveArticle(s))
  {
    OffsetBySingleCharacters(s, 0, ArticleMatchLength(s));
  }

  /** "The" and "\r\n" open a match of five characters when no space follows. */
  lemma MatchLengthTheCrLf(t: string)
    requires t == [] || !IsSpace(t[0])
    ensures ArticleMatchLength("The\r\n" + t) == 5
    ensures ("The\r\n" + t)[5..] == t
  {
    var s := "The\r\n" + t;
    assert s[..1] == "T" && s[..2] == "Th" && s[..3] == "The";
    assert Lower(s[..3]) == "the";
    assert Lower(s[..1])[0] == 't' && Lower(s[..2])[0] == 't';
    assert s[3..][1..][1..] == t;
    assert SpaceRun(s[3..][1..]) == 1;
    assert s[5..] == t;
  }

  /** A printable character followed by one that does not join it is a Character of its own. */
  lemma SingleCharacter(s: string, i: nat)
    requires i + 1 < |s| && !IsControl(s[i]) && !IsExtend(s[i + 1])
    ensures CharacterEnd(s, i) == i + 1
  {
    assert s[i + 1..][0] == s[i + 1];
  }

  /** "The" is three Characters when what follows does not join its "e". */
  lemma OffsetPastThe(s: string, k: nat)
    requires |s| >= 4 && s[0] == 'T' && s[1] == 'h' && s[2] == 'e' && !IsExtend(s[3])
    ensures OffsetByCharacters(s, 0, k + 3) == OffsetByCharacters(s, 3, k)
  {
    assert OffsetByCharacters(s, 0, k + 3) == OffsetByCharacters(s, 1, k + 2) by { SingleCharacter(s, 0); }
    assert OffsetByCharacters(s, 1, k + 2) == OffsetByCharacters(s, 2, k + 1) by { SingleCharacter(s, 1); }
    assert OffsetByCharacters(s, 2, k + 1) == OffsetByCharacters(s, 3, k) by { SingleCharacter(s, 2); }
  }

  /**
   * "The\r\n" before a title: the code as written drops the title's first
   * character as well ("The\r\nPlanets" gives "lanets"), while the match ends
   * right before it.
   */
  lemma RemoveArticleAsWrittenCrLf(t: string)
    requires |t| >= 2 && !IsSpace(t[0]) && !IsControl(t[0]) && !IsExtend(t[1])
    ensures RemoveArticleAsWritten("The\r\n" + t) == Some(t[1..])
    ensures RemoveArticle("The\r\n" + t) == t
  {
    var s := "The\r\n" + t;
    MatchLengthTheCrLf(t);
    assert s[0] == 'T' && s[1] == 'h' && s[2] == 'e' && s[3] == '\r' && s[4] == '\n';
    OffsetPastThe(s, 2);
    assert s[5] == t[0] && s[6] == t[1];
    SingleCharacter(s, 5);
    assert s[6..] == t[1..];
  }

  /**
   * "The " before a joining character: the space and the joining character
   * are one Character, so the code as written drops the joining character
   * too ("The \u0301x" gives "x"), while the match ends before it.
   */
  lemma RemoveArticleAsWrittenJoined(c: char, t: string)
    requires IsExtend(c) && (t == [] || !IsExtend(t[0]))
    ensures RemoveArticleAsWritten("The " + [c] + t) == Some(t)
    ensures RemoveArticle("The " + [c] + t) == [c] + t
  {
    var s := "The " + [c] + t;
    assert s == "The " + ([c] + t);
    RemoveArticleThe([c] + t);
    assert s[0] == 'T' && s[1] == 'h' && s[2] == 'e' && s[3] == ' ' && s[4] == c;
    OffsetPastThe(s, 1);
    assert s[4..] == [c] + t && s[5..] == t;
    assert CharacterEnd(s, 3) == 5 by {
      assert ExtendRun(s[4..]) == 1 by {
        assert s[4..][1..] == t;
      }
    }
  }

  /** "The\r\n": the code as written runs past the end and traps; the match is the whole title. */
  lemma RemoveArticleAsWrittenTraps()
    ensures RemoveArticleAsWritten("The\r\n") == None
    ensures RemoveArticle("The\r\n") == ""
  {
    var s := "The\r\n";
    MatchLengthTheCrLf("");
    assert "The\r\n" + "" == s;
    OffsetPastThe(s, 2);
  }

  // ---------------------------------------------------------------- comparison

  /**
   * `NSString.anarthrousCompare`: compare what is left after removing the
   * articles. Two titles compare the same exactly when their sort keys agree.
   */
  function AnarthrousCompare(x: string, y: string): (r: ComparisonResult)
    ensures r == OrderedSame <==> SortKey(x) == SortKey(y)
  {
    LexCompareSame(SortKey(x), SortKey(y));
    CaseInsensitiveCompare(RemoveArticle(x), RemoveArticle(y))
  }

  /** The string whose code order is the anarthrous order. */
  function SortKey(s: string): string {
    Lower(RemoveArticle(s))
  }

  /** Comparing two titles is comparing their sort keys. */
  lemma AnarthrousCompareByKey(x: string, y: string)
    ensures AnarthrousCompare(x, y) == LexCompare(SortKey(x), SortKey(y))
  {
  }

  /** The order is consistent: swapping operands flips it, titles with one key compare the same. */
  lemma AnarthrousCompareIsOrder(x: string, y: string, z: string)
    ensures AnarthrousCompare(y, x) == AnarthrousCompare(x, y).Flip()
    ensures AnarthrousCompare(x, y) == OrderedSame <==> SortKey(x) == SortKey(y)
    ensures AnarthrousCompare(x, y) == OrderedAscending && AnarthrousCompare(y, z) == OrderedAscending
            ==> AnarthrousCompare(x, z) == OrderedAscending
  {
    LexCompareFlip(SortKey(x), SortKey(y));
    LexCompareSame(SortKey(x), SortKey(y));
    if AnarthrousCompare(x, y) == OrderedAscending && AnarthrousCompare(y, z) == OrderedAscending {
      LexCompareTransitive(SortKey(x), SortKey(y), SortKey(z));
    }
  }

  /** "The Planets" loses its article. */
  lemma RemoveArticleExamplePlanets()
    ensures RemoveArticle("The Planets") == "Planets"
  {
    RemoveArticleThe("Planets");
    assert "The " + "Planets" == "The Planets";
  }

  /** A leading "The" makes no difference: "The Planets" and "Planets" compare the same. */
  lemma ArticleIgnored(t: string)
    requires (t == [] || !IsSpace(t[0])) && !HasArticle(t)
    ensures AnarthrousCompare("The " + t, t) == OrderedSame
  {
    RemoveArticleThe(t);
    RemoveArticleUnchanged(t);
    LexCompareSame(Lower(t), Lower(t));
  }

  /**
   * `anarthrousTitlePredicate`: a missing title counts as empty. `a` goes
   * first exactly when comparing the other way round puts `b` last, and never
   * when the two sort keys agree.
   */
  predicate AnarthrousTitlePredicate(a: Piece, b: Piece): (r: bool)
    ensures r <==> AnarthrousCompare(b.title.GetOr(""), a.title.GetOr("")) == OrderedDescending
    ensures r ==> SortKey(a.title.GetOr("")) != SortKey(b.title.GetOr(""))
  {
    var x, y := a.title.GetOr(""), b.title.GetOr("");
    LexCompareFlip(SortKey(x), SortKey(y));
    AnarthrousCompare(x, y) == OrderedAscending
  }

  /** The predicate is a strict order, as `sort(by:)` requires: irreflexive, asymmetric, transitive. */
  lemma AnarthrousTitlePredicateStrict(a: Piece, b: Piece, c: Piece)
    ensures !AnarthrousTitlePredicate(a, a)
    ensures AnarthrousTitlePredicate(a, b) ==> !AnarthrousTitlePredicate(b, a)
    ensures AnarthrousTitlePredicate(a, b) && AnarthrousTitlePredicate(b, c) ==> AnarthrousTitlePredicate(a, c)
  {
    var x, y, z := a.title.GetOr(""), b.title.GetOr(""), c.title.GetOr("");
    LexCompareSame(SortKey(x), SortKey(x));
    AnarthrousCompareIsOrder(x, y, z);
  }
}
