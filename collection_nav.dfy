/**
 * src/components/CollectionNav.tsx: the tier navigation bar. It is hidden for one tier or
 * none; otherwise it has one button per tier showing the label (its short form on small
 * screens), the tier's piece count, and whether the tier is the one in view. The scroll and
 * intersection observers that decide visibility and the tier in view are not modelled: the
 * tier in view is a parameter.
 */
module CollectionNav {
  import opened Wrappers
  import opened Strings
  import opened Sorting
  import opened ArtBlocks
  import opened Grouping
  import GallerySection
  import CollectorHeader

  /** The labels getShortLabel abbreviates. */
  const SHORTS: map<string, string> := map[
    "Curated" := "Cur", "Presents" := "Pres", "Heritage" := "Her", "Art Blocks 500" := "500",
    "Explorations" := "Exp", "Playground" := "Play", "Collaborations" := "Col", "Studio" := "Stu"]

  /** `shorts[label] || label.slice(0, 3)`; every listed short form is non-empty. */
  function ShortLabel(tierLabel: string): (short: string)
    ensures tierLabel in SHORTS ==> short == SHORTS[tierLabel]
    ensures tierLabel !in SHORTS ==> short == Take(tierLabel, 3)
    ensures |short| <= 4
  {
    if tierLabel in SHORTS && SHORTS[tierLabel] != "" then SHORTS[tierLabel] else Take(tierLabel, 3)
  }

  /** On small screens the nine tiers are still told apart: their short labels differ. */
  lemma ShortLabelsDistinct()
    ensures forall i, j :: 0 <= i < j < |TIER_LABELS| ==>
      ShortLabel(TIER_LABELS[i]) != ShortLabel(TIER_LABELS[j])
  {
    var shorts := ["Cur", "Pres", "Her", "500", "Exp", "Fle", "Play", "Col", "Oth"];
    assert "Flex"[..3] == "Fle" && "Other"[..3] == "Oth";
    assert forall i :: 0 <= i < |TIER_LABELS| ==> ShortLabel(TIER_LABELS[i]) == shorts[i];
  }

  datatype NavButton = NavButton(
    tierLabel: string,
    shortLabel: string,
    tokenCount: nat,
    isActive: bool,
    target: string)

  /** One button of `groups.map(...)` */
  function Button(g: TokenGroup, activeSection: Option<string>): NavButton {
    NavButton(
      g.tierLabel,
      ShortLabel(g.tierLabel),
      CollectorHeader.GroupTokenCount(g),
      activeSection == Some(g.tierLabel),
      GallerySection.SectionId(g.tierLabel))
  }

  /** The bar, or None for `groups.length <= 1`. */
  function Nav(gs: seq<TokenGroup>, activeSection: Option<string>): (nav: Option<seq<NavButton>>)
    ensures nav.Some? <==> |gs| > 1
    ensures nav.Some? ==> |nav.value| == |gs|
    ensures nav.Some? ==> forall i :: 0 <= i < |gs| ==> nav.value[i] == Button(gs[i], activeSection)
  {
    if |gs| <= 1 then None
    else Some(seq(|gs|, i requires 0 <= i < |gs| => Button(gs[i], activeSection)))
  }

  function BadgeTotal(bs: seq<NavButton>): nat {
    if bs == [] then 0 else bs[0].tokenCount + BadgeTotal(bs[1..])
  }

  /** The badges add up to the header's piece count. */
  lemma {:induction false} BadgeTotalIsTotal(gs: seq<TokenGroup>, activeSection: Option<string>)
    ensures BadgeTotal(seq(|gs|, i requires 0 <= i < |gs| => Button(gs[i], activeSection)))
      == CollectorHeader.TotalTokens(gs)
  {
    var bs := seq(|gs|, i requires 0 <= i < |gs| => Button(gs[i], activeSection));
    if gs != [] {
      var rest := seq(|gs[1..]|, i requires 0 <= i < |gs[1..]| => Button(gs[1..][i], activeSection));
      assert bs[1..] == rest;
      BadgeTotalIsTotal(gs[1..], activeSection);
    }
  }

  /**
   * Composed with groupTokens: the bar appears exactly when the tokens span two tiers or
   * more; then at most one button is highlighted, the badges add up to the number of tokens,
   * and every button scrolls to the section id its tier's gallery section carries.
   */
  lemma NavOfGroup(ts: seq<Token>, activeSection: Option<string>)
    ensures var gs := Group(ts);
      var nav := Nav(gs, activeSection);
      && (nav.Some? <==> |gs| > 1)
      && (nav.Some? ==>
        && BadgeTotal(nav.value) == |ts|
        && (forall i, j :: 0 <= i < j < |nav.value| && nav.value[i].isActive ==> !nav.value[j].isActive)
        && (forall i :: 0 <= i < |nav.value| ==>
              nav.value[i].target == GallerySection.SectionId(gs[i].tierLabel)))
  {
    var gs := Group(ts);
    GroupSpec(ts);
    CollectorHeader.HeaderCounts(ts);
    BadgeTotalIsTotal(gs, activeSection);
    if |gs| > 1 {
      OneActive(gs, activeSection);
    }
  }

  /** Tiers with distinct labels light up at most one button. */
  lemma OneActive(gs: seq<TokenGroup>, activeSection: Option<string>)
    requires |gs| > 1 && DistinctBy(gs, Label)
    ensures var bs := Nav(gs, activeSection).value;
      forall i, j :: 0 <= i < j < |bs| && bs[i].isActive ==> !bs[j].isActive
  {
    var bs := Nav(gs, activeSection).value;
    forall i, j | 0 <= i < j < |bs| && bs[i].isActive
      ensures !bs[j].isActive
    {
      assert Label(gs[i]) != Label(gs[j]);
    }
  }

  /** Tokens of two different tiers always bring up the bar. */
  lemma NavShownForTwoTiers(ts: seq<Token>, i: nat, j: nat)
    requires i < |ts| && j < |ts| && TierLabel(ts[i]) != TierLabel(ts[j])
    ensures |Group(ts)| > 1
    ensures Nav(Group(ts), None).Some?
  {
    GroupSpec(ts);
    var gs := Group(ts);
    var li, lj := TierLabel(ts[i]), TierLabel(ts[j]);
    assert li in Labels(gs) && lj in Labels(gs);
    var a :| 0 <= a < |gs| && Labels(gs)[a] == li;
    var b :| 0 <= b < |gs| && Labels(gs)[b] == lj;
    assert a != b;
  }
}
