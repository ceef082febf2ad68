/**
 * src/lib/grouping.ts: the tier grouping engine. Tokens are classified into a tier by a
 * first-match-wins rule over the project's curation status and vertical, bucketed by tier and
 * then by project in insertion-ordered maps (JavaScript's `Map`), and sorted at three levels.
 */
module Grouping {
  import opened Wrappers
  import opened Strings
  import opened Sorting
  import opened ArtBlocks

  // ---------------------------------------------------------------- tiers

  /** `field?.toLowerCase() || ""` */
  function LowerOrEmpty(field: Option<string>): string {
    match field
    case Some(s) => ToLower(s)
    case None => ""
  }

  function Curation(t: Token): string {
    LowerOrEmpty(t.project.curationStatus)
  }

  function Vertical(t: Token): string {
    LowerOrEmpty(t.project.verticalName)
  }

  /** getTierLabel: the first rule that matches the lower-cased curation status or vertical. */
  function TierLabel(t: Token): string {
    var curation := Curation(t);
    var vertical := Vertical(t);
    if curation == "curated" || vertical == "curated" then "Curated"
    else if curation == "presents" || vertical == "presents" then "Presents"
    else if curation == "heritage" || vertical == "heritage" then "Heritage"
    else if vertical == "ab500" then "Art Blocks 500"
    else if curation == "explorations" || vertical == "explorations" || curation == "factory" then "Explorations"
    else if curation == "flex" || vertical == "flex" then "Flex"
    else if curation == "playground" || vertical == "playground" then "Playground"
    else if vertical == "collaborations" then "Collaborations"
    else "Other"
  }

  /** The labels getTierLabel can return, in the order of its rules. */
  const TIER_LABELS: seq<string> :=
    ["Curated", "Presents", "Heritage", "Art Blocks 500", "Explorations", "Flex", "Playground",
     "Collaborations", "Other"]

  /** TIER_ORDER, keyed by lower-cased label. */
  const TIER_ORDER: map<string, int> := map[
    "curated" := 0, "presents" := 1, "heritage" := 2, "ab500" := 3, "explorations" := 4,
    "flex" := 5, "playground" := 6, "collaborations" := 7]

  /** getTierOrder: `TIER_ORDER[label.toLowerCase()] ?? 99` */
  function TierOrder(tier: string): int {
    var key := ToLower(tier);
    if key in TIER_ORDER then TIER_ORDER[key] else 99
  }

  /**
   * The rules of getTierLabel, first match wins: "Curated" exactly when either field is
   * "curated"; "Art Blocks 500" only from the vertical "ab500" and "Collaborations" only from the
   * vertical "collaborations"; "Explorations" also from the curation status "factory"; "Other"
   * exactly when no rule matches.
   */
  lemma TierLabelRules(t: Token)
    ensures TierLabel(t) in TIER_LABELS
    ensures var c, v := Curation(t), Vertical(t);
      && (TierLabel(t) == "Curated" <==> c == "curated" || v == "curated")
      && (TierLabel(t) == "Art Blocks 500" ==> v == "ab500")
      && (TierLabel(t) == "Collaborations" ==> v == "collaborations")
      && (TierLabel(t) == "Explorations" ==> c == "explorations" || v == "explorations" || c == "factory")
      && (c == "factory" && v == "flex" ==> TierLabel(t) == "Explorations")
      && (TierLabel(t) == "Other" <==>
            && c !in {"curated", "presents", "heritage", "explorations", "factory", "flex", "playground"}
            && v !in {"curated", "presents", "heritage", "ab500", "explorations", "flex", "playground", "collaborations"})
  {
  }

  /** Classification ignores case, and a missing field counts as the empty string. */
  lemma TierLabelCaseInsensitive(t: Token, u: Token)
    requires t.project.curationStatus.Some? <==> u.project.curationStatus.Some?
    requires t.project.verticalName.Some? <==> u.project.verticalName.Some?
    requires t.project.curationStatus.Some? ==>
               ToLower(t.project.curationStatus.value) == ToLower(u.project.curationStatus.value)
    requires t.project.verticalName.Some? ==>
               ToLower(t.project.verticalName.value) == ToLower(u.project.verticalName.value)
    ensures TierLabel(t) == TierLabel(u)
  {
  }

  /** A missing field and an empty one classify the same. */
  lemma TierLabelMissingIsEmpty(t: Token)
    requires t.project.curationStatus.None? || t.project.curationStatus == Some("")
    requires t.project.verticalName.None? || t.project.verticalName == Some("")
    ensures TierLabel(t) == "Other"
  {
  }

  /** Curation status "Curated" with vertical "factory" is "Curated": the first rule wins. */
  lemma TierLabelCuratedFactory(t: Token)
    requires t.project.curationStatus == Some("Curated") && t.project.verticalName == Some("factory")
    ensures TierLabel(t) == "Curated"
  {
    assert ToLower("Curated") == "curated";
  }

  /** The ranks of the tiers TIER_ORDER lists under their lower-cased labels. */
  lemma TierOrderRanks()
    ensures TierOrder("Curated") == 0 && TierOrder("Presents") == 1 && TierOrder("Heritage") == 2
    ensures TierOrder("Explorations") == 4
  {
    assert ToLower("Curated") == "curated";
    assert ToLower("Presents") == "presents";
    assert ToLower("Heritage") == "heritage";
    assert ToLower("Explorations") == "explorations";
  }

  lemma TierOrderRanksLater()
    ensures TierOrder("Flex") == 5 && TierOrder("Playground") == 6 && TierOrder("Collaborations") == 7
  {
    assert ToLower("Flex") == "flex";
    assert ToLower("Playground") == "playground";
    assert ToLower("Collaborations") == "collaborations";
  }

  /**
   * "Art Blocks 500" lower-cases to "art blocks 500", which is not a key of TIER_ORDER (its key
   * is "ab500"), so it ranks 99 like "Other".
   */
  lemma TierOrderUnlisted()
    ensures TierOrder("Art Blocks 500") == 99 && TierOrder("Other") == 99
  {
    assert ToLower("Art Blocks 500") == "art blocks 500";
    assert ToLower("Other") == "other";
  }

  // ---------------------------------------------------------------- buckets

  /** `token.project.slug || token.project_name` */
  function ProjectKey(t: Token): string {
    if t.project.slug != "" then t.project.slug else t.projectName
  }

  /** One entry of a `Map<string, ArtBlocksToken[]>`. */
  datatype Bucket = Bucket(key: string, items: seq<Token>)

  /**
   * The position of the entry for `key`, or |bs| when there is none (Map.get's lookup). The
   * same search as ArtBlocks.FirstIndexOfId, kept on buckets so the bucket proofs need no key
   * function.
   */
  function IndexOfKey(bs: seq<Bucket>, key: string): (i: nat)
    ensures i <= |bs|
    ensures i < |bs| ==> bs[i].key == key
    ensures forall j :: 0 <= j < i ==> bs[j].key != key
  {
    if bs == [] then 0
    else if bs[0].key == key then 0
    else 1 + IndexOfKey(bs[1..], key)
  }

  /** `if (!map.has(key)) map.set(key, []); map.get(key)!.push(t);` on an insertion-ordered map. */
  function AddTo(bs: seq<Bucket>, key: string, t: Token): (r: seq<Bucket>)
    ensures forall i :: 0 <= i < |r| ==> r[i].items != [] || (i < |bs| && r[i] == bs[i])
  {
    var i := IndexOfKey(bs, key);
    if i < |bs| then bs[i := Bucket(key, bs[i].items + [t])] else bs + [Bucket(key, [t])]
  }

  /** The map the loop `for (const token of ts)` builds, entries in first-insertion order. */
  function BucketBy(ts: seq<Token>, keyOf: Token -> string): (r: seq<Bucket>)
    ensures forall i :: 0 <= i < |r| ==> r[i].items != []
  {
    if ts == [] then []
    else
      var t := ts[|ts| - 1];
      AddTo(BucketBy(ts[..|ts| - 1], keyOf), keyOf(t), t)
  }

  function Items(b: Bucket): seq<Token> {
    b.items
  }

  /** The tokens of `ts` with key `key`, in input order. */
  function Filter(ts: seq<Token>, keyOf: Token -> string, key: string): seq<Token> {
    if ts == [] then []
    else
      var t := ts[|ts| - 1];
      var init := Filter(ts[..|ts| - 1], keyOf, key);
      if keyOf(t) == key then init + [t] else init
  }

  /** The index of the first token of `ts` with key `key`, or |ts|. */
  function FirstIndexOfKey(ts: seq<Token>, keyOf: Token -> string, key: string): (k: nat)
    ensures k <= |ts|
    ensures k < |ts| ==> keyOf(ts[k]) == key
    ensures forall j :: 0 <= j < k ==> keyOf(ts[j]) != key
  {
    if ts == [] then 0
    else if keyOf(ts[0]) == key then 0
    else 1 + FirstIndexOfKey(ts[1..], keyOf, key)
  }

  /**
   * What the map holds: one entry per key that occurs (and no other), with distinct keys, in
   * order of first occurrence, each with the tokens of that key in input order.
   */
  ghost predicate BucketsOf(ts: seq<Token>, keyOf: Token -> string, bs: seq<Bucket>) {
    && DistinctKeys(bs)
    && Covers(ts, keyOf, bs)
    && ItemsFiltered(ts, keyOf, bs)
    && KeysOccur(ts, keyOf, bs)
    && InFirstOccurrenceOrder(ts, keyOf, bs)
  }

  ghost predicate DistinctKeys(bs: seq<Bucket>) {
    forall i, j :: 0 <= i < j < |bs| ==> bs[i].key != bs[j].key
  }

  /** Every token's key has an entry. */
  ghost predicate Covers(ts: seq<Token>, keyOf: Token -> string, bs: seq<Bucket>) {
    forall j :: 0 <= j < |ts| ==> IndexOfKey(bs, keyOf(ts[j])) < |bs|
  }

  ghost predicate ItemsFiltered(ts: seq<Token>, keyOf: Token -> string, bs: seq<Bucket>) {
    forall i :: 0 <= i < |bs| ==> bs[i].items == Filter(ts, keyOf, bs[i].key)
  }

  /** Every entry's key is some token's key. */
  ghost predicate KeysOccur(ts: seq<Token>, keyOf: Token -> string, bs: seq<Bucket>) {
    forall i :: 0 <= i < |bs| ==> FirstIndexOfKey(ts, keyOf, bs[i].key) < |ts|
  }

  ghost predicate InFirstOccurrenceOrder(ts: seq<Token>, keyOf: Token -> string, bs: seq<Bucket>) {
    forall i, j :: 0 <= i < j < |bs| ==>
      FirstIndexOfKey(ts, keyOf, bs[i].key) < FirstIndexOfKey(ts, keyOf, bs[j].key)
  }

  lemma FirstIndexOfKeyIs(ts: seq<Token>, keyOf: Token -> string, key: string, k: nat)
    requires k <= |ts|
    requires k < |ts| ==> keyOf(ts[k]) == key
    requires forall j :: 0 <= j < k ==> keyOf(ts[j]) != key
    ensures FirstIndexOfKey(ts, keyOf, key) == k
  {
  }

  /** Appending a token leaves earlier first occurrences where they were. */
  lemma FirstIndexOfKeyAppend(init: seq<Token>, t: Token, keyOf: Token -> string, key: string)
    ensures FirstIndexOfKey(init + [t], keyOf, key)
         == if FirstIndexOfKey(init, keyOf, key) < |init| then FirstIndexOfKey(init, keyOf, key)
            else if keyOf(t) == key then |init| else |init| + 1
  {
    var ts := init + [t];
    var f := FirstIndexOfKey(init, keyOf, key);
    var k := if f < |init| then f else if keyOf(t) == key then |init| else |init| + 1;
    forall j | 0 <= j < k
      ensures keyOf(ts[j]) != key
    {
      assert j < |init| ==> ts[j] == init[j];
    }
    FirstIndexOfKeyIs(ts, keyOf, key, k);
  }

  /** A key that does not occur filters to nothing. */
  lemma {:induction false} FilterAbsent(ts: seq<Token>, keyOf: Token -> string, key: string)
    requires forall j :: 0 <= j < |ts| ==> keyOf(ts[j]) != key
    ensures Filter(ts, keyOf, key) == []
  {
    if ts != [] {
      var init := ts[..|ts| - 1];
      assert forall j :: 0 <= j < |init| ==> init[j] == ts[j];
      FilterAbsent(init, keyOf, key);
    }
  }

  /** Filtering the input extended by one token. */
  lemma FilterAppend(init: seq<Token>, t: Token, keyOf: Token -> string, key: string)
    ensures Filter(init + [t], keyOf, key)
         == if keyOf(t) == key then Filter(init, keyOf, key) + [t] else Filter(init, keyOf, key)
  {
    assert (init + [t])[..|init|] == init;
  }

  lemma IndexOfKeyIs(bs: seq<Bucket>, key: string, i: nat)
    requires i <= |bs|
    requires i < |bs| ==> bs[i].key == key
    requires forall j :: 0 <= j < i ==> bs[j].key != key
    ensures IndexOfKey(bs, key) == i
  {
  }

  /** Updating an entry's items keeps every key where it was. */
  lemma IndexOfKeyUpdate(bs: seq<Bucket>, i: nat, b: Bucket, key: string)
    requires i < |bs| && b.key == bs[i].key
    ensures IndexOfKey(bs[i := b], key) == IndexOfKey(bs, key)
  {
    var bs' := bs[i := b];
    assert forall j :: 0 <= j < |bs| ==> bs'[j].key == bs[j].key;
    IndexOfKeyIs(bs', key, IndexOfKey(bs, key));
  }

  /** Appending an entry keeps every key already present where it was. */
  lemma IndexOfKeyAppend(bs: seq<Bucket>, b: Bucket, key: string)
    ensures IndexOfKey(bs + [b], key)
         == if IndexOfKey(bs, key) < |bs| then IndexOfKey(bs, key) else if b.key == key then |bs| else |bs| + 1
  {
    var bs' := bs + [b];
    assert forall j :: 0 <= j < |bs| ==> bs'[j] == bs[j];
    IndexOfKeyIs(bs', key, if IndexOfKey(bs, key) < |bs| then IndexOfKey(bs, key) else if b.key == key then |bs| else |bs| + 1);
  }

  /** The map built from the whole input is the one BucketsOf describes. */
  lemma {:induction false} BucketBySpec(ts: seq<Token>, keyOf: Token -> string)
    ensures BucketsOf(ts, keyOf, BucketBy(ts, keyOf))
  {
    if ts != [] {
      var init := ts[..|ts| - 1];
      var t := ts[|ts| - 1];
      assert ts == init + [t];
      var bs := BucketBy(init, keyOf);
      BucketBySpec(init, keyOf);
      if IndexOfKey(bs, keyOf(t)) < |bs| {
        BucketStepExisting(init, t, keyOf, bs);
      } else {
        BucketStepNew(init, t, keyOf, bs);
      }
    }
  }

  /** Old entries keep their first occurrence, and those of other keys their items. */
  lemma {:induction false} BucketStepOld(init: seq<Token>, t: Token, keyOf: Token -> string, bs: seq<Bucket>)
    requires BucketsOf(init, keyOf, bs)
    ensures forall j :: 0 <= j < |bs| ==>
              FirstIndexOfKey(init + [t], keyOf, bs[j].key) == FirstIndexOfKey(init, keyOf, bs[j].key)
    ensures forall j :: 0 <= j < |bs| && bs[j].key != keyOf(t) ==>
              Filter(init + [t], keyOf, bs[j].key) == bs[j].items
  {
    forall j | 0 <= j < |bs|
      ensures FirstIndexOfKey(init + [t], keyOf, bs[j].key) == FirstIndexOfKey(init, keyOf, bs[j].key)
      ensures bs[j].key != keyOf(t) ==> Filter(init + [t], keyOf, bs[j].key) == bs[j].items
    {
      FirstIndexOfKeyAppend(init, t, keyOf, bs[j].key);
      FilterAppend(init, t, keyOf, bs[j].key);
    }
  }

  lemma {:induction false} BucketStepExisting(init: seq<Token>, t: Token, keyOf: Token -> string, bs: seq<Bucket>)
    requires BucketsOf(init, keyOf, bs)
    requires IndexOfKey(bs, keyOf(t)) < |bs|
    ensures BucketsOf(init + [t], keyOf, AddTo(bs, keyOf(t), t))
  {
    var key := keyOf(t);
    var i := IndexOfKey(bs, key);
    var b := Bucket(key, bs[i].items + [t]);
    assert AddTo(bs, key, t) == bs[i := b];
    BucketStepOld(init, t, keyOf, bs);
    FilterAppend(init, t, keyOf, key);
    CoversExisting(init, t, keyOf, bs);
    EntriesExisting(init + [t], keyOf, bs, i, b);
  }

  lemma {:induction false} CoversExisting(init: seq<Token>, t: Token, keyOf: Token -> string, bs: seq<Bucket>)
    requires Covers(init, keyOf, bs)
    requires IndexOfKey(bs, keyOf(t)) < |bs|
    ensures Covers(init + [t], keyOf, AddTo(bs, keyOf(t), t))
  {
    var ts := init + [t];
    var i := IndexOfKey(bs, keyOf(t));
    var b := Bucket(keyOf(t), bs[i].items + [t]);
    var bs' := bs[i := b];
    assert AddTo(bs, keyOf(t), t) == bs';
    forall j | 0 <= j < |ts|
      ensures IndexOfKey(bs', keyOf(ts[j])) < |bs'|
    {
      IndexOfKeyUpdate(bs, i, b, keyOf(ts[j]));
      if j < |init| {
        assert ts[j] == init[j];
      }
    }
  }

  /** Replacing entry i's items by their filtered extension keeps the description. */
  lemma EntriesExisting(ts: seq<Token>, keyOf: Token -> string, bs: seq<Bucket>, i: nat, b: Bucket)
    requires DistinctKeys(bs)
    requires i < |bs| && b.key == bs[i].key && b.items == Filter(ts, keyOf, b.key)
    requires forall j :: 0 <= j < |bs| && bs[j].key != b.key ==> Filter(ts, keyOf, bs[j].key) == bs[j].items
    requires forall j :: 0 <= j < |bs| ==> FirstIndexOfKey(ts, keyOf, bs[j].key) < |ts|
    requires forall j, k :: 0 <= j < k < |bs| ==>
               FirstIndexOfKey(ts, keyOf, bs[j].key) < FirstIndexOfKey(ts, keyOf, bs[k].key)
    ensures DistinctKeys(bs[i := b]) && ItemsFiltered(ts, keyOf, bs[i := b])
    ensures KeysOccur(ts, keyOf, bs[i := b]) && InFirstOccurrenceOrder(ts, keyOf, bs[i := b])
  {
    var bs' := bs[i := b];
    forall j | 0 <= j < |bs|
      ensures bs'[j].items == Filter(ts, keyOf, bs'[j].key)
    {
      if j != i {
        assert bs'[j] == bs[j] && bs[j].key != b.key;
      }
    }
    SameKeys(ts, keyOf, bs, bs');
  }

  /** Entries with the same keys in the same order keep the properties that speak of keys only. */
  lemma SameKeys(ts: seq<Token>, keyOf: Token -> string, bs: seq<Bucket>, bs': seq<Bucket>)
    requires |bs'| == |bs| && forall j :: 0 <= j < |bs| ==> bs'[j].key == bs[j].key
    requires DistinctKeys(bs) && KeysOccur(ts, keyOf, bs) && InFirstOccurrenceOrder(ts, keyOf, bs)
    ensures DistinctKeys(bs') && KeysOccur(ts, keyOf, bs') && InFirstOccurrenceOrder(ts, keyOf, bs')
  {
  }

  /** The token's key is new: it has no first occurrence before the token and no items yet. */
  lemma {:induction false} NewKeyAbsent(init: seq<Token>, t: Token, keyOf: Token -> string, bs: seq<Bucket>)
    requires Covers(init, keyOf, bs)
    requires IndexOfKey(bs, keyOf(t)) == |bs|
    ensures FirstIndexOfKey(init + [t], keyOf, keyOf(t)) == |init|
    ensures Filter(init + [t], keyOf, keyOf(t)) == [t]
  {
    var key := keyOf(t);
    forall j | 0 <= j < |init|
      ensures keyOf(init[j]) != key
    {
      assert IndexOfKey(bs, keyOf(init[j])) < |bs|;
    }
    FirstIndexOfKeyIs(init, keyOf, key, |init|);
    FirstIndexOfKeyAppend(init, t, keyOf, key);
    FilterAbsent(init, keyOf, key);
    FilterAppend(init, t, keyOf, key);
  }

  lemma {:induction false} CoversNew(init: seq<Token>, t: Token, keyOf: Token -> string, bs: seq<Bucket>)
    requires Covers(init, keyOf, bs)
    ensures Covers(init + [t], keyOf, bs + [Bucket(keyOf(t), [t])])
  {
    var ts := init + [t];
    var b := Bucket(keyOf(t), [t]);
    forall j | 0 <= j < |ts|
      ensures IndexOfKey(bs + [b], keyOf(ts[j])) < |bs| + 1
    {
      IndexOfKeyAppend(bs, b, keyOf(ts[j]));
      if j < |init| {
        assert ts[j] == init[j];
      }
    }
  }

  lemma {:induction false} BucketStepNew(init: seq<Token>, t: Token, keyOf: Token -> string, bs: seq<Bucket>)
    requires BucketsOf(init, keyOf, bs)
    requires IndexOfKey(bs, keyOf(t)) == |bs|
    ensures BucketsOf(init + [t], keyOf, AddTo(bs, keyOf(t), t))
  {
    var ts := init + [t];
    var key := keyOf(t);
    var bs' := bs + [Bucket(key, [t])];
    assert AddTo(bs, key, t) == bs';
    NewKeyAbsent(init, t, keyOf, bs);
    BucketStepOld(init, t, keyOf, bs);
    CoversNew(init, t, keyOf, bs);
    DistinctNew(bs, Bucket(key, [t]));
    EntriesNew(init, t, keyOf, bs);
  }

  lemma DistinctNew(bs: seq<Bucket>, b: Bucket)
    requires DistinctKeys(bs)
    requires IndexOfKey(bs, b.key) == |bs|
    ensures DistinctKeys(bs + [b])
  {
    var bs' := bs + [b];
    forall i, j | 0 <= i < j < |bs'|
      ensures bs'[i].key != bs'[j].key
    {
      assert bs'[i] == bs[i];
    }
  }

  lemma ItemsNew(ts: seq<Token>, keyOf: Token -> string, bs: seq<Bucket>, b: Bucket)
    requires IndexOfKey(bs, b.key) == |bs|
    requires Filter(ts, keyOf, b.key) == b.items
    requires forall j :: 0 <= j < |bs| && bs[j].key != b.key ==> Filter(ts, keyOf, bs[j].key) == bs[j].items
    ensures ItemsFiltered(ts, keyOf, bs + [b])
  {
    var bs' := bs + [b];
    forall j | 0 <= j < |bs'|
      ensures bs'[j].items == Filter(ts, keyOf, bs'[j].key)
    {
      if j < |bs| {
        assert bs'[j] == bs[j];
      }
    }
  }

  lemma OrderNew(init: seq<Token>, ts: seq<Token>, keyOf: Token -> string, bs: seq<Bucket>, b: Bucket)
    requires KeysOccur(init, keyOf, bs) && InFirstOccurrenceOrder(init, keyOf, bs)
    requires |init| < |ts| && FirstIndexOfKey(ts, keyOf, b.key) == |init|
    requires forall j :: 0 <= j < |bs| ==>
               FirstIndexOfKey(ts, keyOf, bs[j].key) == FirstIndexOfKey(init, keyOf, bs[j].key)
    ensures KeysOccur(ts, keyOf, bs + [b])
    ensures InFirstOccurrenceOrder(ts, keyOf, bs + [b])
  {
    var bs' := bs + [b];
    forall i | 0 <= i < |bs'|
      ensures FirstIndexOfKey(ts, keyOf, bs'[i].key) < |ts|
    {
      if i < |bs| {
        assert bs'[i] == bs[i];
      } else {
        assert bs'[i] == b;
      }
    }
    forall i, j | 0 <= i < j < |bs'|
      ensures FirstIndexOfKey(ts, keyOf, bs'[i].key) < FirstIndexOfKey(ts, keyOf, bs'[j].key)
    {
      assert bs'[i] == bs[i];
      if j < |bs| {
        assert bs'[j] == bs[j];
      } else {
        assert bs'[j] == b;
      }
    }
  }

  lemma {:induction false} EntriesNew(init: seq<Token>, t: Token, keyOf: Token -> string, bs: seq<Bucket>)
    requires ItemsFiltered(init, keyOf, bs) && KeysOccur(init, keyOf, bs)
    requires InFirstOccurrenceOrder(init, keyOf, bs)
    requires IndexOfKey(bs, keyOf(t)) == |bs|
    requires FirstIndexOfKey(init + [t], keyOf, keyOf(t)) == |init|
    requires Filter(init + [t], keyOf, keyOf(t)) == [t]
    requires forall j :: 0 <= j < |bs| ==>
               FirstIndexOfKey(init + [t], keyOf, bs[j].key) == FirstIndexOfKey(init, keyOf, bs[j].key)
    requires forall j :: 0 <= j < |bs| && bs[j].key != keyOf(t) ==>
               Filter(init + [t], keyOf, bs[j].key) == bs[j].items
    ensures ItemsFiltered(init + [t], keyOf, bs + [Bucket(keyOf(t), [t])])
    ensures KeysOccur(init + [t], keyOf, bs + [Bucket(keyOf(t), [t])])
    ensures InFirstOccurrenceOrder(init + [t], keyOf, bs + [Bucket(keyOf(t), [t])])
  {
    ItemsNew(init + [t], keyOf, bs, Bucket(keyOf(t), [t]));
    OrderNew(init, init + [t], keyOf, bs, Bucket(keyOf(t), [t]));
  }

  lemma AddToCons(bs: seq<Bucket>, key: string, t: Token)
    requires bs != [] && bs[0].key != key
    ensures AddTo(bs, key, t) == [bs[0]] + AddTo(bs[1..], key, t)
  {
    var i := IndexOfKey(bs[1..], key);
    IndexOfKeyIs(bs, key, i + 1);
    if i < |bs[1..]| {
      assert bs[i + 1 := Bucket(key, bs[i + 1].items + [t])]
          == [bs[0]] + bs[1..][i := Bucket(key, bs[1..][i].items + [t])];
    } else {
      assert bs + [Bucket(key, [t])] == [bs[0]] + (bs[1..] + [Bucket(key, [t])]);
    }
  }

  /** Adding a token adds it, once, to the tokens the map holds. */
  lemma {:induction false} AddToMultiset(bs: seq<Bucket>, key: string, t: Token)
    ensures multiset(FlatMap(AddTo(bs, key, t), Items)) == multiset(FlatMap(bs, Items)) + multiset{t}
  {
    if bs == [] {
      assert AddTo(bs, key, t) == [Bucket(key, [t])];
      assert [Bucket(key, [t])][1..] == [];
    } else if bs[0].key == key {
      var r := AddTo(bs, key, t);
      assert r == [Bucket(key, bs[0].items + [t])] + bs[1..];
      assert r[1..] == bs[1..];
    } else {
      AddToMultiset(bs[1..], key, t);
      AddToCons(bs, key, t);
      assert ([bs[0]] + AddTo(bs[1..], key, t))[1..] == AddTo(bs[1..], key, t);
    }
  }

  /** The map holds every token of its input exactly once. */
  lemma {:induction false} BucketByMultiset(ts: seq<Token>, keyOf: Token -> string)
    ensures multiset(FlatMap(BucketBy(ts, keyOf), Items)) == multiset(ts)
  {
    if ts != [] {
      var init := ts[..|ts| - 1];
      var t := ts[|ts| - 1];
      assert ts == init + [t];
      BucketByMultiset(init, keyOf);
      AddToMultiset(BucketBy(init, keyOf), keyOf(t), t);
    }
  }

  lemma {:induction false} FilterKeys(ts: seq<Token>, keyOf: Token -> string, key: string)
    ensures forall x :: x in Filter(ts, keyOf, key) ==> keyOf(x) == key
  {
    if ts != [] {
      FilterKeys(ts[..|ts| - 1], keyOf, key);
    }
  }

  /** Filtering keeps only tokens of the list. */
  lemma {:induction false} FilterMembers(ts: seq<Token>, keyOf: Token -> string, key: string)
    ensures forall x :: x in Filter(ts, keyOf, key) ==> x in ts
  {
    if ts != [] {
      var init := ts[..|ts| - 1];
      FilterMembers(init, keyOf, key);
      assert forall x :: x in init ==> x in ts;
    }
  }

  /** The filtered list starts with the first token of that key. */
  lemma {:induction false} FilterFirst(ts: seq<Token>, keyOf: Token -> string, key: string)
    requires FirstIndexOfKey(ts, keyOf, key) < |ts|
    ensures Filter(ts, keyOf, key) != []
    ensures Filter(ts, keyOf, key)[0] == ts[FirstIndexOfKey(ts, keyOf, key)]
  {
    var init := ts[..|ts| - 1];
    var t := ts[|ts| - 1];
    assert ts == init + [t];
    FirstIndexOfKeyAppend(init, t, keyOf, key);
    FilterAppend(init, t, keyOf, key);
    if FirstIndexOfKey(init, keyOf, key) < |init| {
      FilterFirst(init, keyOf, key);
    } else {
      FilterAbsent(init, keyOf, key);
    }
  }

  // ---------------------------------------------------------------- groups

  datatype ProjectGroup = ProjectGroup(
    projectName: string,
    artistName: string,
    curationStatus: Option<string>,
    slug: string,
    tokens: seq<Token>)

  /** `label` is a reserved word in Dafny: the tier label is the field `tierLabel`. */
  datatype TokenGroup = TokenGroup(tierLabel: string, sortOrder: int, projects: seq<ProjectGroup>)

  /** `(a, b) => a.invocation - b.invocation` */
  function InvocationCompare(a: Token, b: Token): int {
    a.invocation - b.invocation
  }

  predicate InvocationLe(a: Token, b: Token) {
    InvocationCompare(a, b) <= 0
  }

  /** `p.tokens[0]?.project.lowest_listing ?? 0` */
  function Floor(p: ProjectGroup): int {
    if p.tokens == [] then 0 else p.tokens[0].project.lowestListing.GetOr(0)
  }

  /** `p.tokens[0]?.project.max_invocations || 9999`: a missing or zero edition size is 9999. */
  function Edition(p: ProjectGroup): int {
    if p.tokens == [] then 9999
    else
      match p.tokens[0].project.maxInvocations
      case Some(n) => if n != 0 then n else 9999
      case None => 9999
  }

  /** The project comparator of groupTokens. */
  function ProjectCompare(a: ProjectGroup, b: ProjectGroup): int {
    if Floor(a) != Floor(b) then Floor(b) - Floor(a) else Edition(a) - Edition(b)
  }

  predicate ProjectLe(a: ProjectGroup, b: ProjectGroup) {
    ProjectCompare(a, b) <= 0
  }

  /** `(a, b) => a.sortOrder - b.sortOrder` */
  function TierCompare(a: TokenGroup, b: TokenGroup): int {
    a.sortOrder - b.sortOrder
  }

  predicate TierLe(a: TokenGroup, b: TokenGroup) {
    TierCompare(a, b) <= 0
  }

  /**
   * The project comparator is consistent (compare(a, b) == -compare(b, a)) and puts the higher
   * floor price first, breaking ties by the smaller edition size.
   */
  lemma ProjectOrder(a: ProjectGroup, b: ProjectGroup)
    ensures ProjectCompare(a, b) == -ProjectCompare(b, a)
    ensures ProjectLe(a, b) <==> Floor(a) > Floor(b) || (Floor(a) == Floor(b) && Edition(a) <= Edition(b))
  {
  }

  /** The three comparators are consistent, so the sorts they drive are well defined. */
  lemma ComparatorsTotal()
    ensures TotalPreorder(InvocationLe)
    ensures TotalPreorder(ProjectLe)
    ensures TotalPreorder(TierLe)
  {
    forall a, b, c | ProjectLe(a, b) && ProjectLe(b, c)
      ensures ProjectLe(a, c)
    {
      ProjectOrder(a, b);
      ProjectOrder(b, c);
      ProjectOrder(a, c);
    }
  }

  /** The group of one project: metadata of its first token in input order, tokens by invocation. */
  function BuildProject(items: seq<Token>): ProjectGroup
    requires items != []
  {
    var first := items[0];
    ProjectGroup(first.project.name, first.project.artistName, first.project.curationStatus,
                 first.project.slug, SortBy(items, InvocationLe))
  }

  /** The loop `for (const [, projectTokens] of projectMap) projects.push(...)`. */
  function BuildProjects(bs: seq<Bucket>): (ps: seq<ProjectGroup>)
    requires forall i :: 0 <= i < |bs| ==> bs[i].items != []
    ensures |ps| == |bs|
    ensures forall i :: 0 <= i < |bs| ==> ps[i] == BuildProject(bs[i].items)
  {
    if bs == [] then [] else BuildProjects(bs[..|bs| - 1]) + [BuildProject(bs[|bs| - 1].items)]
  }

  /** The group of one tier: its tokens sub-grouped by project, the projects sorted. */
  function BuildTier(b: Bucket): TokenGroup {
    TokenGroup(b.key, TierOrder(b.key), SortBy(BuildProjects(BucketBy(b.items, ProjectKey)), ProjectLe))
  }

  /** The loop `for (const [label, tierTokens] of tierMap) groups.push(...)`. */
  function BuildTiers(bs: seq<Bucket>): (gs: seq<TokenGroup>)
    ensures |gs| == |bs|
    ensures forall i :: 0 <= i < |bs| ==> gs[i] == BuildTier(bs[i])
  {
    if bs == [] then [] else BuildTiers(bs[..|bs| - 1]) + [BuildTier(bs[|bs| - 1])]
  }

  /** groupTokens: tiers by label, projects within a tier, both sorted. */
  function Group(ts: seq<Token>): seq<TokenGroup> {
    SortBy(BuildTiers(BucketBy(ts, TierLabel)), TierLe)
  }

  function ProjectTokens(p: ProjectGroup): seq<Token> {
    p.tokens
  }

  /** `group.projects.flatMap((p) => p.tokens)` */
  function TierTokens(g: TokenGroup): seq<Token> {
    FlatMap(g.projects, ProjectTokens)
  }

  /** Every token of every group, tier by tier. */
  function AllTokens(gs: seq<TokenGroup>): seq<Token> {
    FlatMap(gs, TierTokens)
  }

  function Label(g: TokenGroup): string {
    g.tierLabel
  }

  function Labels(gs: seq<TokenGroup>): (labels: seq<string>)
    ensures |labels| == |gs|
    ensures forall i :: 0 <= i < |gs| ==> labels[i] == gs[i].tierLabel
  {
    seq(|gs|, i requires 0 <= i < |gs| => gs[i].tierLabel)
  }

  /** The project map key of a project group's tokens. */
  function GroupKey(p: ProjectGroup): string {
    if p.tokens == [] then "" else ProjectKey(p.tokens[0])
  }

  // ---------------------------------------------------------------- what groupTokens promises

  /** Two projects in the order in which their keys first appear among the tier's tokens. */
  function ProjectsBefore(tier: seq<Token>): (ProjectGroup, ProjectGroup) -> bool {
    (a: ProjectGroup, b: ProjectGroup) =>
      FirstIndexOfKey(tier, ProjectKey, GroupKey(a)) < FirstIndexOfKey(tier, ProjectKey, GroupKey(b))
  }

  /** Two tiers in the order in which their labels first appear among the input tokens. */
  function TiersBefore(ts: seq<Token>): (TokenGroup, TokenGroup) -> bool {
    (a: TokenGroup, b: TokenGroup) =>
      FirstIndexOfKey(ts, TierLabel, a.tierLabel) < FirstIndexOfKey(ts, TierLabel, b.tierLabel)
  }

  /**
   * A project group built from the tier tokens `tier`: exactly the tier's tokens with its key,
   * ordered by invocation, named after the first of them in input order.
   */
  ghost predicate ProjectOf(tier: seq<Token>, p: ProjectGroup) {
    var items := Filter(tier, ProjectKey, GroupKey(p));
    && p.tokens != []
    && items != []
    && multiset(p.tokens) == multiset(items)
    && SortedBy(p.tokens, InvocationLe)
    && (forall t :: t in p.tokens ==> ProjectKey(t) == GroupKey(p))
    && p.projectName == items[0].project.name
    && p.artistName == items[0].project.artistName
    && p.curationStatus == items[0].project.curationStatus
    && p.slug == items[0].project.slug
  }

  /**
   * A tier group built from the input `ts`: exactly the tokens with its label, split into
   * projects with distinct keys, sorted by the project comparator, ties in order of first
   * appearance.
   */
  ghost predicate TierOf(ts: seq<Token>, g: TokenGroup) {
    var tier := Filter(ts, TierLabel, g.tierLabel);
    && tier != []
    && g.tierLabel in TIER_LABELS
    && g.sortOrder == TierOrder(g.tierLabel)
    && g.projects != []
    && multiset(TierTokens(g)) == multiset(tier)
    && SortedBy(g.projects, ProjectLe)
    && DistinctBy(g.projects, GroupKey)
    && TiesOrderedBy(g.projects, ProjectLe, ProjectsBefore(tier))
    && (forall p :: p in g.projects ==> ProjectOf(tier, p))
  }

  lemma BuildProjectOf(tier: seq<Token>, b: Bucket)
    requires b.items != [] && b.items == Filter(tier, ProjectKey, b.key)
    ensures GroupKey(BuildProject(b.items)) == b.key
    ensures ProjectOf(tier, BuildProject(b.items))
  {
    var p := BuildProject(b.items);
    ComparatorsTotal();
    SortBySorted(b.items, InvocationLe);
    SortByMultiset(b.items, InvocationLe);
    FilterKeys(tier, ProjectKey, b.key);
    forall t | t in p.tokens
      ensures ProjectKey(t) == b.key
    {
      assert t in multiset(p.tokens);
    }
    assert p.tokens[0] in p.tokens;
  }

  /** The project groups of a tier, before the sort. */
  lemma {:induction false} UnsortedProjects(tier: seq<Token>)
    requires tier != []
    ensures var bs := BucketBy(tier, ProjectKey);
      var ps := BuildProjects(bs);
      && ps != []
      && (forall i :: 0 <= i < |ps| ==> ProjectOf(tier, ps[i]))
      && DistinctBy(ps, GroupKey)
      && TiesOrderedBy(ps, ProjectLe, ProjectsBefore(tier))
      && multiset(FlatMap(ps, ProjectTokens)) == multiset(tier)
  {
    var bs := BucketBy(tier, ProjectKey);
    var ps := BuildProjects(bs);
    BucketBySpec(tier, ProjectKey);
    assert IndexOfKey(bs, ProjectKey(tier[0])) < |bs|;
    forall i | 0 <= i < |ps|
      ensures ProjectOf(tier, ps[i]) && GroupKey(ps[i]) == bs[i].key
      ensures multiset(ProjectTokens(ps[i])) == multiset(Items(bs[i]))
    {
      BuildProjectOf(tier, bs[i]);
      SortByMultiset(bs[i].items, InvocationLe);
    }
    FlatMapSameMultiset(ps, ProjectTokens, bs, Items);
    BucketByMultiset(tier, ProjectKey);
  }

  lemma BuildTierOf(ts: seq<Token>, b: Bucket)
    requires b.items != [] && b.items == Filter(ts, TierLabel, b.key)
    ensures BuildTier(b).tierLabel == b.key
    ensures TierOf(ts, BuildTier(b))
  {
    var tier := b.items;
    var ps := BuildProjects(BucketBy(tier, ProjectKey));
    var g := BuildTier(b);
    UnsortedProjects(tier);
    ComparatorsTotal();
    SortBySorted(ps, ProjectLe);
    SortByDistinct(ps, ProjectLe, GroupKey);
    SortByStable(ps, ProjectLe, ProjectsBefore(tier));
    SortByFlatMap(ps, ProjectLe, ProjectTokens);
    SortByMultiset(ps, ProjectLe);
    assert g.projects != [] by {
      assert ps[0] in multiset(g.projects);
    }
    forall p | p in g.projects
      ensures ProjectOf(tier, p)
    {
      SortByMember(ps, ProjectLe, p);
    }
    FilterKeys(ts, TierLabel, b.key);
    assert tier[0] in tier;
    TierLabelRules(tier[0]);
  }

  /** The tier groups, before the sort. */
  lemma UnsortedTiers(ts: seq<Token>)
    ensures var bs := BucketBy(ts, TierLabel);
      var gs := BuildTiers(bs);
      && (forall i :: 0 <= i < |gs| ==> TierOf(ts, gs[i]))
      && DistinctBy(gs, Label)
      && TiesOrderedBy(gs, TierLe, TiersBefore(ts))
      && (forall j :: 0 <= j < |ts| ==> IndexOfKey(bs, TierLabel(ts[j])) < |gs|)
      && multiset(AllTokens(gs)) == multiset(ts)
  {
    var bs := BucketBy(ts, TierLabel);
    var gs := BuildTiers(bs);
    BucketBySpec(ts, TierLabel);
    forall i | 0 <= i < |gs|
      ensures TierOf(ts, gs[i]) && gs[i].tierLabel == bs[i].key
      ensures multiset(TierTokens(gs[i])) == multiset(Items(bs[i]))
    {
      BuildTierOf(ts, bs[i]);
    }
    FlatMapSameMultiset(gs, TierTokens, bs, Items);
    BucketByMultiset(ts, TierLabel);
  }

  /**
   * groupTokens: the tiers are sorted by rank, have distinct labels, and tiers of equal rank keep
   * the order in which their labels first appear; every token's tier is present; each tier is the
   * one TierOf describes; and all tokens together are the input, each exactly once.
   */
  lemma GroupSpec(ts: seq<Token>)
    ensures SortedBy(Group(ts), TierLe)
    ensures DistinctBy(Group(ts), Label)
    ensures TiesOrderedBy(Group(ts), TierLe, TiersBefore(ts))
    ensures forall g :: g in Group(ts) ==> TierOf(ts, g)
    ensures forall j :: 0 <= j < |ts| ==> TierLabel(ts[j]) in Labels(Group(ts))
    ensures multiset(AllTokens(Group(ts))) == multiset(ts)
  {
    var gs := BuildTiers(BucketBy(ts, TierLabel));
    UnsortedTiers(ts);
    ComparatorsTotal();
    SortBySorted(gs, TierLe);
    SortByDistinct(gs, TierLe, Label);
    SortByStable(gs, TierLe, TiersBefore(ts));
    SortByFlatMap(gs, TierLe, TierTokens);
    GroupTiersDescribed(ts);
    GroupLabelsCover(ts);
  }

  /** Every tier of the sorted list is one of the tiers built from the buckets. */
  lemma GroupTiersDescribed(ts: seq<Token>)
    ensures forall g :: g in Group(ts) ==> TierOf(ts, g)
  {
    var gs := BuildTiers(BucketBy(ts, TierLabel));
    UnsortedTiers(ts);
    forall g | g in Group(ts)
      ensures TierOf(ts, g)
    {
      SortByMember(gs, TierLe, g);
    }
  }

  /** Every token's tier label is the label of a tier of the sorted list. */
  lemma GroupLabelsCover(ts: seq<Token>)
    ensures forall j :: 0 <= j < |ts| ==> TierLabel(ts[j]) in Labels(Group(ts))
  {
    var bs := BucketBy(ts, TierLabel);
    var gs := BuildTiers(bs);
    var groups := Group(ts);
    UnsortedTiers(ts);
    forall j | 0 <= j < |ts|
      ensures TierLabel(ts[j]) in Labels(groups)
    {
      GroupLabelAt(ts, j);
    }
  }

  lemma GroupLabelAt(ts: seq<Token>, j: nat)
    requires j < |ts|
    ensures TierLabel(ts[j]) in Labels(Group(ts))
  {
    var bs := BucketBy(ts, TierLabel);
    var gs := BuildTiers(bs);
    var groups := Group(ts);
    UnsortedTiers(ts);
    var i := IndexOfKey(bs, TierLabel(ts[j]));
    SortByMember(gs, TierLe, gs[i]);
    var k :| 0 <= k < |groups| && groups[k] == gs[i];
    assert Labels(groups)[k] == TierLabel(ts[j]);
  }

  /** Grouping neither loses nor duplicates tokens. */
  lemma GroupCount(ts: seq<Token>)
    ensures |AllTokens(Group(ts))| == |ts|
  {
    GroupSpec(ts);
    assert |multiset(AllTokens(Group(ts)))| == |multiset(ts)|;
  }

  // ---------------------------------------------------------------- groupTokens

  /**
   * `for (const token of ts) { if (!map.has(key)) map.set(key, []); map.get(key)!.push(token); }`
   * on an insertion-ordered map, held as its list of entries.
   */
  method BucketInto(ts: seq<Token>, keyOf: Token -> string) returns (map_: seq<Bucket>)
    ensures map_ == BucketBy(ts, keyOf)
    ensures BucketsOf(ts, keyOf, map_)
  {
    map_ := [];
    for j := 0 to |ts|
      invariant map_ == BucketBy(ts[..j], keyOf)
    {
      var token := ts[j];
      var key := keyOf(token);
      var i := IndexOfKey(map_, key);
      ghost var before := map_;
      if i == |map_| {
        map_ := map_ + [Bucket(key, [])];
        assert map_[i].items == [] && [] + [token] == [token];
        map_ := map_[i := Bucket(key, map_[i].items + [token])];
        assert map_ == before + [Bucket(key, [token])];
      } else {
        map_ := map_[i := Bucket(key, map_[i].items + [token])];
      }
      assert ts[..j + 1] == ts[..j] + [token];
    }
    assert ts[..|ts|] == ts;
    BucketBySpec(ts, keyOf);
  }

  /** The projects of one tier: `for (const [, projectTokens] of projectMap) projects.push(...)`. */
  method CollectProjects(projectMap: seq<Bucket>) returns (projects: seq<ProjectGroup>)
    requires forall i :: 0 <= i < |projectMap| ==> projectMap[i].items != []
    ensures projects == BuildProjects(projectMap)
  {
    projects := [];
    for k := 0 to |projectMap|
      invariant projects == BuildProjects(projectMap[..k])
    {
      var projectTokens := projectMap[k].items;
      var first := projectTokens[0];
      projects := projects + [ProjectGroup(first.project.name, first.project.artistName,
                                           first.project.curationStatus, first.project.slug,
                                           SortBy(projectTokens, InvocationLe))];
      assert projectMap[..k + 1][..k] == projectMap[..k];
    }
    assert projectMap[..|projectMap|] == projectMap;
  }

  /** The group of one tier: its project map, the projects built and sorted, and its rank. */
  method CollectTier(tierLabel: string, tierTokens: seq<Token>) returns (group: TokenGroup)
    ensures group == BuildTier(Bucket(tierLabel, tierTokens))
  {
    var projectMap := BucketInto(tierTokens, ProjectKey);
    var projects := CollectProjects(projectMap);
    projects := SortBy(projects, ProjectLe);
    group := TokenGroup(tierLabel, TierOrder(tierLabel), projects);
  }

  /** The loop `for (const [label, tierTokens] of tierMap) groups.push(...)`. */
  method CollectTiers(tierMap: seq<Bucket>) returns (groups: seq<TokenGroup>)
    ensures groups == BuildTiers(tierMap)
  {
    groups := [];
    for j := 0 to |tierMap|
      invariant groups == BuildTiers(tierMap[..j])
    {
      var group := CollectTier(tierMap[j].key, tierMap[j].items);
      groups := groups + [group];
      assert tierMap[..j + 1][..j] == tierMap[..j];
    }
    assert tierMap[..|tierMap|] == tierMap;
  }

  /** groupTokens: one pass to bucket by tier, one per tier to bucket by project, three sorts. */
  method GroupTokens(tokens: seq<Token>) returns (groups: seq<TokenGroup>)
    ensures groups == Group(tokens)
    ensures SortedBy(groups, TierLe) && DistinctBy(groups, Label)
    ensures forall g :: g in groups ==> TierOf(tokens, g)
    ensures multiset(AllTokens(groups)) == multiset(tokens)
  {
    var tierMap := BucketInto(tokens, TierLabel);
    groups := CollectTiers(tierMap);
    groups := SortBy(groups, TierLe);
    GroupSpec(tokens);
  }
}
