# onview gallery core, modelled in Dafny

onview is a gallery for Art Blocks collections. Given a wallet address, an ENS name, or
several of either separated by `,` or `+`, it does the following:

1. It resolves the input to wallet addresses.
2. It downloads every token the wallets hold from the Art Blocks GraphQL API: pages of 100,
   retries on failure, at most three wallets at a time, duplicates removed.
3. It groups the tokens into tiers (Curated, Presents, Heritage and so on) and, inside each
   tier, into projects. Each project's tokens are sorted by invocation; within a tier,
   projects are sorted by floor price (highest first), then by edition size (smallest first).
4. It renders the result:
   - a collector header with the counts;
   - a navigation bar with one button per tier;
   - one gallery section per tier, laid out as a hero piece, up to four featured pieces and a grid;
   - a token modal with previous/next navigation, a slideshow and keyboard control.

The Dafny modules follow the source files:

| module | models |
|---|---|
| `Wrappers` | `Option` and `Result` |
| `Strings` | the string operations the code relies on: `toLowerCase`, `trim`, `slice`, decimal numbers |
| `Sorting` | `Array.prototype.sort` as a stable insertion sort on values, with sortedness, permutation and stability proved |
| `ArtBlocks` | `src/lib/artblocks.ts`: token types, `fetchPage` with retries, `fetchWalletTokens` pagination, the batched `fetchMultiWalletTokens` with de-duplication, `fetchTokenDetail`, `fetchUserProfile` |
| `Grouping` | `src/lib/grouping.ts`: tier labels, tier order and `groupTokens` (a method with the source's loops, proved equal to a functional specification) |
| `Ens` | `src/lib/ens.ts`: `isENS`, `isMultiWallet`, splitting and `toUrlPath`, `resolveSingle` and `resolveInput` |
| `GallerySection` | `src/components/GallerySection.tsx`: the hero/featured/grid split, the count line and the section id |
| `CollectorHeader` | `src/components/CollectorHeader.tsx`: the totals (pieces, projects, collections), the short address, the heading and the wallet label |
| `CollectionNav` | `src/components/CollectionNav.tsx`: short labels, the buttons and when the bar is hidden |
| `TokenModal` | `src/components/TokenModal.tsx`: the position in the list, the key bindings, the error texts, and a `Modal` class holding the component's state, with one method per state change |

The network is an oracle. A `Server` maps (owner, offset, attempt) to a `Reply`. A reply is
either an HTTP status with a GraphQL body, or an exception thrown by `fetch`. The ENS client is
a `Resolver` holding three functions: forward lookup, reverse lookup and `isAddress`. Timers and
callbacks become values:
- the retry waits of `fetchPage` are returned as a list of milliseconds;
- the `onProgress` calls are returned as the list of values they were made with.

## Model

| member | source | states |
|---|---|---|
| ArtBlocks.Truthy | src/lib/artblocks.ts:76 | `x \|\| null` on an optional string: present exactly when the string is there and non-empty, and then unchanged |
| ArtBlocks.GraphQLMessage | src/lib/artblocks.ts:227 | the message of a GraphQL error is never empty: the first error's message when it is non-empty, otherwise "GraphQL error" |
| ArtBlocks.FirstSuccess | src/lib/artblocks.ts:238-273 | the first attempt at or after `attempt` whose reply succeeds, or `retries`: the attempts before it all fail and the attempt itself succeeds |
| ArtBlocks.RunAttemptsSpec | src/lib/artblocks.ts:238-274 | the retry loop makes 1 to `retries` attempts. It returns the rows of the first successful attempt, or the error of the last attempt when all fail. It waits once between consecutive attempts, 1000·(n+1) ms after a 429 and 500·(n+1) ms after any other failure |
| ArtBlocks.FetchPage | src/lib/artblocks.ts:233-275 | the loop (queried with the lower-cased owner) returns exactly the result, waits and attempt count `RunAttempts` specifies |
| ArtBlocks.AttemptRetries | src/lib/artblocks.ts:253-258 | a failure before the last attempt records its backoff and moves on to the next attempt |
| ArtBlocks.AttemptFailsLast | src/lib/artblocks.ts:270 | a failure on the last attempt is the result |
| ArtBlocks.PaginateSpec | src/lib/artblocks.ts:284-291 | pagination fetches consecutive pages. Every page but the last is full (100 rows). It stops at the first short page, or at the first page whose fetch fails, and that page's error is the result |
| ArtBlocks.PaginateStep | src/lib/artblocks.ts:285-290 | one round of the while loop: an error stops it, a short page ends it, a full page continues at the next offset |
| ArtBlocks.PaginationOf342 | src/lib/artblocks.ts:284-293 | 342 tokens take four requests at offsets 0, 100, 200 and 300, reporting progress 100, 200, 300, 342 |
| ArtBlocks.PaginationOf200 | src/lib/artblocks.ts:284-293 | 200 tokens take a third request that comes back empty; progress is 100, 200, 200 |
| ArtBlocks.PaginateBoundIrrelevant | src/lib/artblocks.ts:284-291 | the result does not depend on which bound on the last page is assumed |
| ArtBlocks.FetchWalletTokens | src/lib/artblocks.ts:277-294 | the method returns the concatenated pages or the first page error. It reports a running total after each page and requests offsets 0, 100, 200, … |
| ArtBlocks.RunningTotals | src/lib/artblocks.ts:286-287 | the n-th progress value is the number of tokens in the first n+1 pages |
| ArtBlocks.RunningTotalsMonotone | src/lib/artblocks.ts:287 | progress never decreases and ends at the total number of tokens |
| ArtBlocks.RunningTotalsValues | src/lib/artblocks.ts:286-287 | each progress value is the previous one plus the size of the new page |
| ArtBlocks.Offsets | src/lib/artblocks.ts:282-290 | the n-th request is made at offset 100·n |
| ArtBlocks.ConcatAppend | src/lib/artblocks.ts:286 | appending pages one by one concatenates them |
| ArtBlocks.FirstFailure | src/lib/artblocks.ts:307-314 | the index of the first wallet whose fetch fails, or the number of wallets |
| ArtBlocks.MergeSpec | src/lib/artblocks.ts:305-321 | merging the wallets fails exactly when a wallet fails, with the first failing wallet's error; otherwise it is the wallets' tokens concatenated in address order |
| ArtBlocks.NumBatches | src/lib/artblocks.ts:305 | the number of batches of at most three wallets covering the addresses (the ceiling of n/3) |
| ArtBlocks.BatchReportsSpec | src/lib/artblocks.ts:316-320 | after batch k the progress report gives min(3(k+1), n) completed wallets out of n, with counts that never decrease; the last report gives all tokens and all wallets |
| ArtBlocks.FetchMultiWalletTokens | src/lib/artblocks.ts:296-330 | the method returns the de-duplicated merge of the wallets' outcomes, or the first failure. Its progress reports are exactly those of the batches completed before a failure |
| ArtBlocks.ProcessBatch | src/lib/artblocks.ts:305-321 | one batch either fails with the merged error or appends its wallets' tokens and one progress report |
| ArtBlocks.MultiWalletFails | src/lib/artblocks.ts:307-314 | a batch containing the first failing wallet makes the whole call fail with that wallet's error |
| ArtBlocks.MultiWalletDone | src/lib/artblocks.ts:316-321 | after the last batch the collected tokens are the full merge |
| ArtBlocks.Dedup | src/lib/artblocks.ts:324-329 | the filter with a `seen` set keeps exactly the first occurrence of each token id |
| ArtBlocks.FirstOccurrencesIds | src/lib/artblocks.ts:324-329 | de-duplication loses no token id |
| ArtBlocks.FirstOccurrencesDistinct | src/lib/artblocks.ts:324-329 | after de-duplication no id occurs twice |
| ArtBlocks.FirstOccurrencesFirst | src/lib/artblocks.ts:324-329 | every kept token is the first token with its id in the input, and kept tokens are in input order |
| ArtBlocks.TokenDetailOutcome | src/lib/artblocks.ts:208-231 | a token detail request fails exactly when its fetch throws, its status is not OK (an API error with the status) or its body has errors; otherwise the result is the first row, or none for no rows |
| ArtBlocks.ProfileDisplayName | src/lib/artblocks.ts:89-105 | the profile's name when it is non-empty, otherwise the user's non-empty display name, otherwise none |
| ArtBlocks.UserProfileOutcome | src/lib/artblocks.ts:58-106 | only a thrown fetch is an error, and the wallet list is never empty. Without a user, a profile id or a linked-wallet answer, the list is the address alone; otherwise it is the linked users' addresses in order. The users endpoint gets the lower-cased address |
| Grouping.TierLabelRules | src/lib/grouping.ts:28-48 | every token gets one of the nine tier labels. Curated is chosen exactly when curation or vertical is "curated". Factory-curated tokens of the flex vertical are Explorations. Other is chosen exactly when neither field matches any rule |
| Grouping.TierLabelCaseInsensitive | src/lib/grouping.ts:29-30 | the tier depends only on the lower-cased curation and vertical |
| Grouping.TierLabelMissingIsEmpty | src/lib/grouping.ts:29-30 | a missing field counts as the empty string, so a token with neither field is Other |
| Grouping.TierLabelCuratedFactory | src/lib/grouping.ts:32 | the Curated rule is tried first, before the factory rule |
| Grouping.TierOrderRanks | src/lib/grouping.ts:17-52 | the ranks of the tier labels that lower-case to a key of the order table |
| Grouping.TierOrderRanksLater | src/lib/grouping.ts:17-52 | Flex, Playground and Collaborations rank 5, 6 and 7 |
| Grouping.TierOrderUnlisted | src/lib/grouping.ts:17-52 | "Art Blocks 500" lower-cases to a string that is not a key of the order table, so it ranks 99, like Other |
| Grouping.BucketBySpec | src/lib/grouping.ts:58-78 | grouping into an insertion-ordered map gives one bucket per key occurring in the input, with distinct keys, in order of first occurrence. Each bucket holds exactly the input tokens with that key, in input order |
| Grouping.BucketByMultiset | src/lib/grouping.ts:58-64 | the buckets together hold exactly the input tokens |
| Grouping.BucketInto | src/lib/grouping.ts:58-64 | the map-building loop builds exactly those buckets |
| Grouping.FilterFirst | src/lib/grouping.ts:82 | a bucket's first token is the first input token with that key |
| Grouping.ProjectOrder | src/lib/grouping.ts:93-101 | the project comparator is antisymmetric: a project comes first when its floor is higher, or when floors are equal and its edition size (9999 when missing or zero) is not larger |
| Grouping.ComparatorsTotal | src/lib/grouping.ts:88-111 | the three comparators are total preorders, so the sorts are well defined |
| Grouping.UnsortedProjects | src/lib/grouping.ts:71-90 | before sorting, a tier's projects are distinct by key. Each holds its key's tokens sorted by invocation, and together they hold the tier's tokens |
| Grouping.UnsortedTiers | src/lib/grouping.ts:58-108 | before sorting, there is one tier per label with the tokens of that label, and every token lands in a tier |
| Grouping.GroupSpec | src/lib/grouping.ts:54-114 | the tiers are sorted by rank, with equal ranks in first-occurrence order. Labels are distinct, every token's label has a tier, each tier is built from exactly its tokens, and all tokens appear exactly once |
| Grouping.GroupCount | src/lib/grouping.ts:54-114 | grouping neither loses nor duplicates tokens |
| Grouping.GroupTokens | src/lib/grouping.ts:54-114 | the method with the source's loops computes `Group`, whose tiers are sorted, distinct and a permutation of the input |
| Grouping.CollectTiers | src/lib/grouping.ts:69-108 | the loop over the tier map builds one group per bucket |
| Grouping.CollectTier | src/lib/grouping.ts:71-107 | one tier built from its tokens |
| Ens.IsENSSpec | src/lib/ens.ts:10-12 | an input is an ENS name exactly when it ends in ".eth" |
| Ens.Split | src/lib/ens.ts:55-56 | splitting on `,` and `+` gives at least one piece and no piece contains a separator |
| Ens.SplitJoin | src/lib/ens.ts:66-70 | splitting pieces joined with '+' gives the pieces back |
| Ens.JoinSplit | src/lib/ens.ts:66-70 | joining the split pieces with '+' turns every ',' into '+' |
| Ens.MultiWalletSplit | src/lib/ens.ts:47-49 | an input is multi-wallet exactly when it splits into more than one piece |
| Ens.TrimNonEmptySpec | src/lib/ens.ts:57-58 | after trimming and dropping empty pieces, every part is non-empty and trimmed |
| Ens.PartsShape | src/lib/ens.ts:55-58 | every part is non-empty, trimmed and free of separators |
| Ens.ToUrlPathSpec | src/lib/ens.ts:65-71 | the URL path contains no ','; splitting it gives the parts back; it is empty exactly when there are no parts |
| Ens.ToUrlPathIdempotent | src/lib/ens.ts:65-71 | converting a URL path again leaves it unchanged |
| Ens.ResolveSingleSpec | src/lib/ens.ts:19-45 | after trimming and lower-casing, a ".eth" name resolves through the forward lookup, and a missing address gives "Could not resolve ENS name". Otherwise a valid address is returned with its reverse name, with no name when the reverse lookup fails. Anything else fails with "Invalid address or ENS name". Returned addresses are lower-case |
| Ens.ENSBeforeAddress | src/lib/ens.ts:22-32 | for a ".eth" name the address check is never consulted |
| Ens.ResolveSingleNormalizes | src/lib/ens.ts:20 | inputs equal up to surrounding white space and letter case resolve alike |
| Ens.ResolveAllSpec | src/lib/ens.ts:60 | resolving all parts succeeds exactly when every part resolves, giving one wallet per part in order; otherwise the first failing part's error |
| Ens.ResolveInputSpec | src/lib/ens.ts:51-62 | resolveInput yields one wallet per part, and the primary wallet is the first; otherwise the first failing part's error |
| GallerySection.LayoutSpec | src/components/GallerySection.tsx:40-91 | hero, featured and grid are the section's tokens in order, each exactly once. There are at most four featured pieces. The featured block shows exactly when there are two tokens or more, the grid exactly when there are more than five |
| GallerySection.PluralSpec | src/components/GallerySection.tsx:63-65 | the singular is used exactly for a count of 1 |
| GallerySection.CountPhraseSpec | src/components/GallerySection.tsx:63-65 | a count phrase is the count in decimal, a blank and the word, in the singular exactly for a count of 1 |
| GallerySection.CountLineOfGroup | src/components/GallerySection.tsx:39-65 | composed with groupTokens: the count line gives the tier's number of input tokens and its number of projects, which is between 1 and the number of pieces |
| GallerySection.DashedClean | src/components/GallerySection.tsx:47 | replacing runs of white space with '-' leaves no white space |
| GallerySection.DashedRun | src/components/GallerySection.tsx:47 | a whole run of white space becomes a single '-' |
| GallerySection.DashedNoWhitespace | src/components/GallerySection.tsx:47 | a string without white space is left unchanged |
| GallerySection.SectionId | src/components/GallerySection.tsx:47 | a section id starts with "section-" and contains no white space |
| GallerySection.SectionIdWords | src/components/GallerySection.tsx:47 | a label of three words with single blanks, such as "Art Blocks 500", gets "section-" followed by its lower-cased words joined with '-' |
| GallerySection.SectionCount | src/components/GallerySection.tsx:40-41 | composed with groupTokens: a section holds exactly its tier's tokens, and it always has a hero and a project |
| CollectorHeader.TotalTokensIsLength | src/components/CollectorHeader.tsx:13-16 | the nested sum of project sizes is the number of tokens over all tiers |
| CollectorHeader.GroupTokenCountIsLength | src/components/CollectorHeader.tsx:14 | a tier's sum of project sizes is the number of tokens the tier shows |
| CollectorHeader.ProjectsAtMostTokens | src/components/CollectorHeader.tsx:13-17 | when no project is empty, there are no more projects than pieces |
| CollectorHeader.HeaderCounts | src/components/CollectorHeader.tsx:13-17 | composed with groupTokens: the piece count is the number of tokens, and the project count is at most that |
| CollectorHeader.CollectionsOfGroup | src/components/CollectorHeader.tsx:41-42 | composed with groupTokens: the "Collections" figure is the number of different tier labels among the tokens |
| CollectorHeader.ShortAddressSpec | src/components/CollectorHeader.tsx:18 | an address of ten characters or more is shown as its first six characters, "..." and its last four |
| CollectorHeader.AddressAlwaysShown | src/components/CollectorHeader.tsx:26-30 | the heading is the ENS name when it is non-empty, otherwise the short address; either way the short address is on screen |
| CollectorHeader.WalletLabel | src/components/CollectorHeader.tsx:12-23 | the single-wallet label is used exactly when the wallet count, which defaults to 1, is at most 1 |
| CollectorHeader.WalletLabelCount | src/components/CollectorHeader.tsx:23 | for several wallets the label is "Combined Collection (", the count in decimal, then " wallets)" |
| CollectionNav.ShortLabel | src/components/CollectionNav.tsx:101-113 | the listed short form when the label has one, otherwise its first three characters; at most four characters |
| CollectionNav.ShortLabelsDistinct | src/components/CollectionNav.tsx:101-113 | the nine tier labels have nine different short forms, so they stay distinguishable on small screens |
| CollectionNav.Nav | src/components/CollectionNav.tsx:58-95 | the bar is hidden for one tier or none; otherwise it has one button per tier, in order |
| CollectionNav.BadgeTotalIsTotal | src/components/CollectionNav.tsx:69-72 | the badges add up to the header's piece count |
| CollectionNav.NavOfGroup | src/components/CollectionNav.tsx:51-72 | composed with groupTokens: the bar shows exactly for two tiers or more. At most one button is active, the badges add up to the number of tokens, and each button targets its section's id |
| CollectionNav.OneActive | src/components/CollectionNav.tsx:68 | with distinct tier labels at most one button is highlighted |
| CollectionNav.NavShownForTwoTiers | src/components/CollectionNav.tsx:58 | tokens of two different tiers always bring up the bar |
| TokenModal.IndexOf | src/components/TokenModal.tsx:26 | `indexOf`: -1 exactly when the id is absent, otherwise its first position |
| TokenModal.TargetsSpec | src/components/TokenModal.tsx:26-40 | there is a next target exactly when hasNext holds, and it is the following id; the same holds for the previous target. An id missing from a non-empty list has the first id as next and no previous |
| TokenModal.NextPrevInverse | src/components/TokenModal.tsx:30-40 | in a list without repeats, next then previous returns to the same id; there is no next at the end and no previous at the start |
| TokenModal.AdvanceSpec | src/components/TokenModal.tsx:110-117 | n steps of goNext from position k reach position min(k+n, last) |
| TokenModal.PositionLabelSpec | src/components/TokenModal.tsx:196-210 | "i / n" is shown exactly when a token is loaded and there are two ids or more. It reads the 1-based position and the length, in decimal, with position 0 for an id missing from the list |
| TokenModal.KeyAction | src/components/TokenModal.tsx:91-98 | Escape closes, ArrowRight goes next, ArrowLeft goes back, and every other key is ignored |
| TokenModal.SettledOf | src/components/TokenModal.tsx:69-83 | the fetch promise fulfils exactly when fetchTokenDetail does not throw, and rejects with the error's message otherwise |
| TokenModal.ErrorTextOfReply | src/components/TokenModal.tsx:65-88 | composed with fetchTokenDetail: the settled fetch itself sets no error text exactly when the token is found. A bad status sets "API error: " and the status; an empty answer sets "Token not found". The text is drawn unless the fetch threw with an empty message, which `{error && ...}` hides. An earlier error stays (see Modal.Settle) |
| TokenModal.Modal.constructor | src/components/TokenModal.tsx:17-22 | initial state: loading, no token or error, slideshow off |
| TokenModal.Modal.Navigate | src/components/TokenModal.tsx:65-124 | a new token id starts a new load, and the slideshow stops at the end of the list |
| TokenModal.Modal.Next | src/components/TokenModal.tsx:30-34 | moves to the next id when there is one, otherwise changes nothing |
| TokenModal.Modal.Prev | src/components/TokenModal.tsx:36-40 | moves to the previous id when there is one, otherwise changes nothing |
| TokenModal.Modal.KeyDown | src/components/TokenModal.tsx:91-98 | Escape closes and changes nothing else. An arrow key makes exactly the transition of goNext or goPrev, with the whole new state: the new id, a new load when the id changes, the slideshow stopped at the end, everything else unchanged. Other keys change nothing |
| TokenModal.Modal.ToggleSlideshow | src/components/TokenModal.tsx:126-129 | flips the slideshow, which stays off at the end of the list |
| TokenModal.Modal.Tick | src/components/TokenModal.tsx:110-117 | a slideshow tick advances to the next id and starts its load when the id changes, keeping token, error and the closed flag; with the slideshow off nothing changes |
| TokenModal.Modal.StopAtEnd | src/components/TokenModal.tsx:119-124 | the slideshow is switched off when there is no next id |
| TokenModal.Modal.Settle | src/components/TokenModal.tsx:65-88 | only the current request's answer is applied. A token is stored, or "Token not found" or the error message set, and loading ends. A stale answer changes nothing. The error is never reset: a found token keeps an earlier error, so both are drawn, and a drawn error stays drawn unless an Error with an empty message replaces it |
| Sorting.SortByMultiset | src/lib/grouping.ts:88-111 | sorting permutes its input |
| Sorting.SortBySorted | src/lib/grouping.ts:88-111 | with a total preorder the result is sorted |
| Sorting.SortByStable | src/lib/grouping.ts:88-111 | elements that compare equal keep their input order, as `Array.prototype.sort` guarantees |
| Sorting.SortByDistinct | src/lib/grouping.ts:93-111 | sorting keeps elements distinct by a key |
| Strings.ToLowerIsLower | src/lib/grouping.ts:29-30 | lower-casing yields lower-case text and is idempotent |
| Strings.TrimSpec | src/lib/ens.ts:20-57 | `trim` removes exactly the leading and trailing white space; its result is trimmed, and trimmed text is unchanged |
| Strings.TrimIdempotent | src/lib/ens.ts:57 | trimming twice is trimming once |
| Strings.NatToStringValue | src/components/CollectorHeader.tsx:23 | a number's decimal text reads back as the number |

## Left out

- Letter case: `toLowerCase` is modelled on ASCII letters only. The rest of Unicode case mapping is not modelled.
- White space: `trim` and the `\s` of `replace(/\s+/g, "-")` use the white-space and line-terminator characters of section 12.2 and 12.3 of ECMA-262, as a fixed list of code points. Characters that later versions of Unicode add to category Zs are not in the list.
- ENS normalisation (`normalize` from viem), the ENS lookups and `isAddress` are not implemented. They are the `Resolver` oracle's functions; a thrown `normalize` or lookup is an `Err` of the forward lookup.
- HTTP and JSON are not implemented: every request is answered by an oracle `Reply`, either a status with a parsed body or a thrown message.
- Timers (`setTimeout` in the retries, `setInterval` of the slideshow, the idle timer that hides the modal's controls) are not modelled. The retry waits are returned as a list of milliseconds, and a slideshow tick is the `Tick` method.
- Concurrency: `Promise.all` runs the wallets of a batch and the parts of an input one after the other, in order. When several promises reject, the first in order is the one reported, while at run time the first to settle wins.
- The progress callback from inside a batch (src/lib/artblocks.ts:309-311) is not modelled: it depends on how the concurrent fetches interleave. The report made after each batch is modelled.
- ArtBlocks.FetchWalletTokens: requires that the server eventually answers with a short page or an error (a ghost bound `lastPage`). A server that returns full pages forever, on which the source loops forever, is not modelled.
- ArtBlocks.FetchMultiWalletTokens: carries the same bound for every address (ghost `lastPages`), so a wallet whose server returns full pages forever is not modelled.
- ArtBlocks.ProcessBatch: carries the same per-address `lastPages` bound as FetchMultiWalletTokens, for the same reason.
- Grouping.GroupTokens: the sorts are modelled on values (a stable insertion sort), not in place, so the sharing of the sorted `tokens` array between the project map and the project record is not modelled. The project record's name, artist, curation status and slug come from the first token in input order, because the source reads them before it sorts.
- Grouping.TierOrderUnlisted: it is stated as the code is written. "Art Blocks 500" lower-cases to "art blocks 500", which is not a key of `TIER_ORDER` (the key is "ab500"), so that tier ranks 99 together with Other.
- Look-ups in object literals (`TIER_ORDER[...]`, the short labels) do not model inherited prototype keys such as "constructor".
- Floating point: `lowest_listing` is an integer and is only compared. `aspect_ratio` and every `toFixed` display are left out.
- Rendering: JSX, the DOM, CSS classes, images, `TokenCard`, `ParallaxImage` and the detail panel of the modal are not modelled.
- The observers and scroll listeners are not modelled: `IntersectionObserver`, the `visible` flag of a gallery section, the `isVisible` threshold of the nav bar, `scrollIntoView`. The section in view (`activeSection`) is a parameter.
- `walletCount` is an integer in the model; JavaScript allows any number there.
- TokenModal.Modal.Navigate: `onNavigate` is modelled as the change of `tokenId` that the parent makes in response, and `onClose` as the `closed` flag.
- Ens.ResolveInputSpec: `primary` is `wallets[0]`. When there are no parts it is `undefined` in the source and `None` in the model.
- The cancellation flag of the fetch effect is modelled by a request counter: a settled fetch whose number is not the current one is ignored.
