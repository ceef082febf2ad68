/**
 * src/components/CollectorHeader.tsx: the figures and texts of the collection header, as
 * functions of the wallet address, its ENS name, the grouped tokens and the wallet count.
 */
module CollectorHeader {
  import opened Wrappers
  import opened Strings
  import opened Sorting
  import opened ArtBlocks
  import opened Grouping

  /** `projects.reduce((s, p) => s + p.tokens.length, 0)` */
  function ProjectTokenCount(ps: seq<ProjectGroup>): nat {
    if ps == [] then 0 else |ps[0].tokens| + ProjectTokenCount(ps[1..])
  }

  /** The number of pieces a tier holds. */
  function GroupTokenCount(g: TokenGroup): nat {
    ProjectTokenCount(g.projects)
  }

  /** `totalTokens`: the sum over all tiers */
  function TotalTokens(gs: seq<TokenGroup>): nat {
    if gs == [] then 0 else GroupTokenCount(gs[0]) + TotalTokens(gs[1..])
  }

  /** `totalProjects`: `groups.reduce((sum, g) => sum + g.projects.length, 0)` */
  function TotalProjects(gs: seq<TokenGroup>): nat {
    if gs == [] then 0 else |gs[0].projects| + TotalProjects(gs[1..])
  }

  /** A tier's count is the number of tokens the section displays. */
  lemma {:induction false} GroupTokenCountIsLength(ps: seq<ProjectGroup>)
    ensures ProjectTokenCount(ps) == |FlatMap(ps, ProjectTokens)|
  {
    if ps != [] {
      GroupTokenCountIsLength(ps[1..]);
    }
  }

  /** The header's total is the number of tokens over all tiers. */
  lemma {:induction false} TotalTokensIsLength(gs: seq<TokenGroup>)
    ensures TotalTokens(gs) == |AllTokens(gs)|
  {
    if gs != [] {
      GroupTokenCountIsLength(gs[0].projects);
      TotalTokensIsLength(gs[1..]);
    }
  }

  predicate ProjectsNonEmpty(gs: seq<TokenGroup>) {
    forall i, j :: 0 <= i < |gs| && 0 <= j < |gs[i].projects| ==> gs[i].projects[j].tokens != []
  }

  /** When every project holds a token, there are no more projects than pieces. */
  lemma {:induction false} ProjectsAtMostTokens(gs: seq<TokenGroup>)
    requires ProjectsNonEmpty(gs)
    ensures TotalProjects(gs) <= TotalTokens(gs)
  {
    if gs != [] {
      ProjectsAtMostTokensIn(gs[0].projects);
      assert ProjectsNonEmpty(gs[1..]) by {
        forall i, j | 0 <= i < |gs[1..]| && 0 <= j < |gs[1..][i].projects|
          ensures gs[1..][i].projects[j].tokens != []
        {
          assert gs[1..][i] == gs[i + 1];
        }
      }
      ProjectsAtMostTokens(gs[1..]);
    }
  }

  lemma {:induction false} ProjectsAtMostTokensIn(ps: seq<ProjectGroup>)
    requires forall j :: 0 <= j < |ps| ==> ps[j].tokens != []
    ensures |ps| <= ProjectTokenCount(ps)
  {
    if ps != [] {
      ProjectsAtMostTokensIn(ps[1..]);
    }
  }

  /**
   * Composed with groupTokens: the header shows as many pieces as the wallets hold tokens,
   * and there are no more projects than pieces.
   */
  lemma HeaderCounts(ts: seq<Token>)
    ensures TotalTokens(Group(ts)) == |ts|
    ensures TotalProjects(Group(ts)) <= |ts|
  {
    var gs := Group(ts);
    TotalTokensIsLength(gs);
    GroupCount(ts);
    GroupSpec(ts);
    assert ProjectsNonEmpty(gs) by {
      forall i, j | 0 <= i < |gs| && 0 <= j < |gs[i].projects|
        ensures gs[i].projects[j].tokens != []
      {
        assert gs[i] in gs;
        assert TierOf(ts, gs[i]);
        assert gs[i].projects[j] in gs[i].projects;
      }
    }
    ProjectsAtMostTokens(gs);
  }

  /** The "Collections" figure: `groups.length` */
  function CollectionCount(gs: seq<TokenGroup>): nat {
    |gs|
  }

  /** The tier labels the tokens fall into. */
  function TierLabelsOf(ts: seq<Token>): set<string> {
    set t | t in ts :: TierLabel(t)
  }

  /** Composed with groupTokens: there are as many collections as tier labels among the tokens. */
  lemma CollectionsOfGroup(ts: seq<Token>)
    ensures CollectionCount(Group(ts)) == |TierLabelsOf(ts)|
  {
    var gs := Group(ts);
    GroupSpec(ts);
    var labels := set g | g in gs :: g.tierLabel;
    forall l | l in labels
      ensures l in TierLabelsOf(ts)
    {
      var g :| g in gs && g.tierLabel == l;
      assert TierOf(ts, g);
      var tier := Filter(ts, TierLabel, l);
      FilterKeys(ts, TierLabel, l);
      FilterMembers(ts, TierLabel, l);
      assert tier[0] in tier;
    }
    forall t | t in ts
      ensures TierLabel(t) in labels
    {
      var j :| 0 <= j < |ts| && ts[j] == t;
      var k :| 0 <= k < |gs| && Labels(gs)[k] == TierLabel(ts[j]);
      assert gs[k] in gs;
    }
    assert labels == TierLabelsOf(ts);
    DistinctLabelsCount(gs);
  }

  /** Tiers with distinct labels have as many labels as tiers. */
  lemma {:induction false} DistinctLabelsCount(gs: seq<TokenGroup>)
    requires DistinctBy(gs, Label)
    ensures |set g | g in gs :: g.tierLabel| == |gs|
  {
    if gs != [] {
      var rest := gs[1..];
      assert DistinctBy(rest, Label) by {
        forall i, j | 0 <= i < j < |rest|
          ensures Label(rest[i]) != Label(rest[j])
        {
          assert rest[i] == gs[i + 1] && rest[j] == gs[j + 1];
        }
      }
      DistinctLabelsCount(rest);
      var restLabels := set g | g in rest :: g.tierLabel;
      assert gs[0].tierLabel !in restLabels by {
        forall g | g in rest
          ensures g.tierLabel != gs[0].tierLabel
        {
          var i :| 0 <= i < |rest| && rest[i] == g;
          assert Label(gs[0]) != Label(gs[i + 1]);
        }
      }
      assert gs == [gs[0]] + rest;
      assert (set g | g in gs :: g.tierLabel) == {gs[0].tierLabel} + restLabels;
    }
  }

  /** `${address.slice(0, 6)}...${address.slice(-4)}` */
  function ShortAddress(address: string): string {
    Take(address, 6) + "..." + Last(address, 4)
  }

  /** A 42-character hexadecimal address is shown as its first six and last four characters. */
  lemma ShortAddressSpec(address: string)
    requires |address| >= 10
    ensures |ShortAddress(address)| == 13
    ensures ShortAddress(address)[..6] == address[..6]
    ensures ShortAddress(address)[6..9] == "..."
    ensures ShortAddress(address)[9..] == address[|address| - 4..]
  {
  }

  /** `ens || shortAddress`: an empty name counts as no name. */
  function Heading(address: string, ens: Option<string>): string {
    if ens.Some? && ens.value != "" then ens.value else ShortAddress(address)
  }

  /** `{ens && <p>{shortAddress}</p>}` */
  predicate ShowsSubLine(ens: Option<string>) {
    ens.Some? && ens.value != ""
  }

  /**
   * The short address is on screen in every case: as the heading when there is no name, and
   * on the line under the name otherwise.
   */
  lemma AddressAlwaysShown(address: string, ens: Option<string>)
    ensures ShowsSubLine(ens) ==> Heading(address, ens) == ens.value
    ensures !ShowsSubLine(ens) ==> Heading(address, ens) == ShortAddress(address)
    ensures Heading(address, ens) == ShortAddress(address) || ShowsSubLine(ens)
  {
  }

  const SINGLE_LABEL := "The Collection of"

  /** The line above the heading; `walletCount` defaults to 1. */
  function WalletLabel(walletCount: Option<int>): (s: string)
    ensures walletCount.GetOr(1) <= 1 <==> s == SINGLE_LABEL
  {
    var n := walletCount.GetOr(1);
    if n > 1 then "Combined Collection (" + NatToString(n) + " wallets)" else SINGLE_LABEL
  }

  /** For several wallets the label spells out the count in decimal. */
  lemma WalletLabelCount(n: int)
    requires n > 1
    ensures var s := WalletLabel(Some(n));
      && |s| > 30
      && s[..21] == "Combined Collection ("
      && s[|s| - 9..] == " wallets)"
      && DecimalValue(s[21..|s| - 9]) == n
  {
    var digits := NatToString(n);
    var s := WalletLabel(Some(n));
    assert s == "Combined Collection (" + digits + " wallets)";
    assert s[21..|s| - 9] == digits;
    NatToStringValue(n);
  }
}
