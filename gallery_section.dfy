/**
 * src/components/GallerySection.tsx: the list arithmetic of one tier section. Its tokens are
 * flattened project by project; the first is the hero piece, the next FEATURED_LIMIT are
 * featured and the rest fill the grid. The `visible` flag and the rendering are not modelled.
 */
module GallerySection {
  import opened Wrappers
  import opened Strings
  import opened Sorting
  import opened ArtBlocks
  import opened Grouping
  import CollectorHeader

  const FEATURED_LIMIT: nat := 4

  /** `allTokens[0]`, undefined for an empty section */
  function Hero(g: TokenGroup): Option<Token> {
    var all := TierTokens(g);
    if all == [] then None else Some(all[0])
  }

  /** `allTokens.slice(1, 1 + FEATURED_LIMIT)` */
  function Featured(g: TokenGroup): seq<Token> {
    Slice(TierTokens(g), 1, 1 + FEATURED_LIMIT)
  }

  /** `allTokens.slice(1 + FEATURED_LIMIT)` */
  function Grid(g: TokenGroup): seq<Token> {
    Drop(TierTokens(g), 1 + FEATURED_LIMIT)
  }

  function HeroList(g: TokenGroup): seq<Token> {
    match Hero(g)
    case Some(t) => [t]
    case None => []
  }

  /**
   * Hero, featured and grid pieces are the section's tokens in order, each exactly once; at most
   * FEATURED_LIMIT are featured; there is a featured piece exactly when there are two or more
   * tokens, and a grid exactly when there are more than 1 + FEATURED_LIMIT.
   */
  lemma LayoutSpec(g: TokenGroup)
    ensures HeroList(g) + Featured(g) + Grid(g) == TierTokens(g)
    ensures Hero(g).Some? <==> TierTokens(g) != []
    ensures Hero(g).Some? ==> Hero(g).value == TierTokens(g)[0]
    ensures |Featured(g)| <= FEATURED_LIMIT
    ensures Featured(g) != [] <==> |TierTokens(g)| > 1
    ensures Grid(g) != [] <==> |TierTokens(g)| > 1 + FEATURED_LIMIT
  {
    var all := TierTokens(g);
    if |all| > 1 + FEATURED_LIMIT {
      assert all == [all[0]] + all[1..1 + FEATURED_LIMIT] + all[1 + FEATURED_LIMIT..];
    } else if all != [] {
      assert all == [all[0]] + all[1..];
    }
  }

  /** `word` followed by "s" unless the count is 1 */
  function Plural(count: int, word: string): string {
    word + (if count != 1 then "s" else "")
  }

  /** The singular is used exactly for a count of 1. */
  lemma PluralSpec(count: int, word: string)
    ensures Plural(count, word) == word <==> count == 1
    ensures count != 1 ==> Plural(count, word) == word + "s"
  {
    if count != 1 {
      assert |Plural(count, word)| == |word| + 1;
    }
  }

  /** `{n} word{n !== 1 ? "s" : ""}` */
  function CountPhrase(n: nat, word: string): string {
    NatToString(n) + " " + Plural(n, word)
  }

  /**
   * A count phrase is the count in decimal, a blank and the word, which is in the singular
   * exactly for a count of 1.
   */
  lemma CountPhraseSpec(n: nat, word: string)
    ensures var digits := NatToString(n);
      && DecimalValue(digits) == n
      && (CountPhrase(n, word) == digits + " " + word <==> n == 1)
      && (n != 1 ==> CountPhrase(n, word) == digits + " " + word + "s")
  {
    var digits := NatToString(n);
    NatToStringValue(n);
    PluralSpec(n, word);
    assert CountPhrase(n, word) == digits + " " + Plural(n, word);
    if n != 1 {
      assert |CountPhrase(n, word)| == |digits + " " + word| + 1;
    }
  }

  /** The line under the tier label: "n piece(s) · m project(s)". */
  function CountLine(g: TokenGroup): string {
    CountPhrase(|TierTokens(g)|, "piece") + " · " + CountPhrase(|g.projects|, "project")
  }

  /**
   * Composed with groupTokens: the count line gives the number of input tokens of the tier and
   * the number of its projects, which is at least 1 and at most the number of pieces.
   */
  lemma CountLineOfGroup(ts: seq<Token>, g: TokenGroup)
    requires g in Group(ts)
    ensures var pieces := |Filter(ts, TierLabel, g.tierLabel)|;
      && CountLine(g) == CountPhrase(pieces, "piece") + " · " + CountPhrase(|g.projects|, "project")
      && 1 <= |g.projects| <= pieces
  {
    SectionCount(ts, g);
    GroupSpec(ts);
    assert TierOf(ts, g);
    forall j | 0 <= j < |g.projects|
      ensures g.projects[j].tokens != []
    {
      assert g.projects[j] in g.projects;
    }
    CollectorHeader.ProjectsAtMostTokensIn(g.projects);
    CollectorHeader.GroupTokenCountIsLength(g.projects);
  }

  /** `s.replace(/\s+/g, "-")`: every run of white space becomes one '-'. */
  function Dashed(s: string): string
    decreases |s|
  {
    if s == [] then []
    else if IsWhitespace(s[0]) then "-" + Dashed(TrimStart(s[1..]))
    else [s[0]] + Dashed(s[1..])
  }

  /** Replacing the runs of white space with '-' leaves no white space. */
  lemma {:induction false} DashedClean(s: string)
    ensures NoWhitespace(Dashed(s))
    decreases |s|
  {
    if s != [] {
      if IsWhitespace(s[0]) {
        DashedClean(TrimStart(s[1..]));
        NoWhitespaceCons('-', Dashed(TrimStart(s[1..])));
      } else {
        DashedClean(s[1..]);
        NoWhitespaceCons(s[0], Dashed(s[1..]));
      }
    }
  }

  lemma NoWhitespaceCons(c: char, s: string)
    requires !IsWhitespace(c) && NoWhitespace(s)
    ensures NoWhitespace([c] + s)
  {
    forall i | 0 <= i < |[c] + s|
      ensures !IsWhitespace(([c] + s)[i])
    {
      if i > 0 {
        assert ([c] + s)[i] == s[i - 1];
      }
    }
  }

  predicate NoWhitespace(s: string) {
    forall i :: 0 <= i < |s| ==> !IsWhitespace(s[i])
  }

  /** A string without white space is left unchanged. */
  lemma {:induction false} DashedNoWhitespace(s: string)
    requires NoWhitespace(s)
    ensures Dashed(s) == s
  {
    if s != [] {
      DashedNoWhitespace(s[1..]);
      assert [s[0]] + s[1..] == s;
    }
  }

  /** A whole run of white space, however long, becomes a single '-'. */
  lemma DashedRun(run: string, rest: string)
    requires run != []
    requires forall i :: 0 <= i < |run| ==> IsWhitespace(run[i])
    requires rest == [] || !IsWhitespace(rest[0])
    ensures Dashed(run + rest) == "-" + Dashed(rest)
  {
    var s := run + rest;
    assert s[1..] == run[1..] + rest;
    TrimStartRun(run[1..], rest);
  }

  lemma {:induction false} TrimStartRun(run: string, rest: string)
    requires forall i :: 0 <= i < |run| ==> IsWhitespace(run[i])
    requires rest == [] || !IsWhitespace(rest[0])
    ensures TrimStart(run + rest) == rest
  {
    if run == [] {
      assert run + rest == rest;
    } else {
      assert (run + rest)[1..] == run[1..] + rest;
      TrimStartRun(run[1..], rest);
    }
  }

  /** `section-${label.toLowerCase().replace(/\s+/g, "-")}` */
  function SectionId(tierLabel: string): (id: string)
    ensures |id| >= 8 && id[..8] == "section-"
    ensures forall i :: 0 <= i < |id| ==> !IsWhitespace(id[i])
  {
    DashedClean(ToLower(tierLabel));
    "section-" + Dashed(ToLower(tierLabel))
  }

  /**
   * A tier label of three words separated by single blanks, such as "Art Blocks 500", has the
   * section id "section-" followed by the lower-cased words joined with '-'.
   */
  lemma SectionIdWords(w0: string, w1: string, w2: string)
    requires NoWhitespace(w0) && NoWhitespace(w1) && NoWhitespace(w2)
    requires w1 != [] && w2 != []
    ensures SectionId(w0 + " " + w1 + " " + w2)
      == "section-" + ToLower(w0) + "-" + ToLower(w1) + "-" + ToLower(w2)
  {
    ToLowerAppend(w0 + " " + w1 + " ", w2);
    ToLowerAppend(w0 + " " + w1, " ");
    ToLowerAppend(w0 + " ", w1);
    ToLowerAppend(w0, " ");
    assert ToLower(" ") == " ";
    LowerNoWhitespace(w0);
    LowerNoWhitespace(w1);
    LowerNoWhitespace(w2);
    DashedWords(ToLower(w0), ToLower(w1), ToLower(w2));
  }

  lemma LowerNoWhitespace(w: string)
    requires NoWhitespace(w)
    ensures NoWhitespace(ToLower(w))
  {
    forall i | 0 <= i < |w|
      ensures !IsWhitespace(ToLower(w)[i])
    {
      assert !IsWhitespace(w[i]);
    }
  }

  /** Three words separated by single blanks are joined with '-'. */
  lemma DashedWords(w0: string, w1: string, w2: string)
    requires NoWhitespace(w0) && NoWhitespace(w1) && NoWhitespace(w2)
    requires w1 != [] && w2 != []
    ensures Dashed(w0 + " " + w1 + " " + w2) == w0 + "-" + w1 + "-" + w2
  {
    DashedWord(w1, w2);
    DashedNoWhitespace(w2);
    assert w0 + " " + w1 + " " + w2 == w0 + " " + (w1 + " " + w2);
    DashedWord(w0, w1 + " " + w2);
    assert w0 + "-" + (w1 + "-" + w2) == w0 + "-" + w1 + "-" + w2;
  }

  /** A word, one blank and the next word: the blank becomes '-'. */
  lemma DashedWord(word: string, rest: string)
    requires NoWhitespace(word)
    requires rest == [] || !IsWhitespace(rest[0])
    ensures Dashed(word + " " + rest) == word + "-" + Dashed(rest)
  {
    var tail := " " + rest;
    var d := Dashed(rest);
    assert word + " " + rest == word + tail;
    DashedPrefix(word, tail);
    DashedRun(" ", rest);
    assert Dashed(word + tail) == word + ("-" + d);
    assert word + ("-" + d) == word + "-" + d;
  }

  /** A leading piece without white space passes through unchanged. */
  lemma {:induction false} DashedPrefix(word: string, rest: string)
    requires NoWhitespace(word)
    ensures Dashed(word + rest) == word + Dashed(rest)
  {
    if word != [] {
      assert (word + rest)[0] == word[0] && !IsWhitespace(word[0]);
      assert (word + rest)[1..] == word[1..] + rest;
      assert Dashed(word + rest) == [word[0]] + Dashed(word[1..] + rest);
      DashedPrefix(word[1..], rest);
      assert [word[0]] + (word[1..] + Dashed(rest)) == word + Dashed(rest);
    } else {
      assert word + rest == rest;
    }
  }

  /** Composed with groupTokens: a section shows exactly the tokens of its tier. */
  lemma SectionCount(ts: seq<Token>, g: TokenGroup)
    requires g in Group(ts)
    ensures |TierTokens(g)| == |Filter(ts, TierLabel, g.tierLabel)|
    ensures Hero(g).Some? && |g.projects| >= 1
  {
    GroupSpec(ts);
    assert |multiset(TierTokens(g))| == |multiset(Filter(ts, TierLabel, g.tierLabel))|;
  }
}
