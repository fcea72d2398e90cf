# Am I Fxxk: exposure-site partitioning, postcode validation and banner selection

A small web page asks for a Victorian postcode and fetches that postcode's COVID-19
exposure-site records from the Victorian Government dataset. It then splits the records
into two tiers by the prefix of their advice title (`"Tier 1"`, `"Tier 2"`) and keeps only
the first record of each site title in each tier. Finally it shows one of three banners:
red "U R FXXK" when there is a tier-1 site, orange "U R A BIT FXXK" when there are only
tier-2 sites, and green "U R NOT FXXK" when there are none.

This project models the page's data-shaping and selection logic (`index.tsx`):

- `sites.dfy` (`Sites`): the record type `SiteData` and the partitioned pair
  `PartitionedSiteData` (index.tsx:6-17), plus shared predicates: distinct titles
  (`DistinctTitles`), and a subsequence taken at increasing positions (`SubsequenceAt`).
- `dedupe.dfy` (`Dedupe`): `dedupeByTitle` (index.tsx:22-26), defined by
  `Dedupe.DedupeByTitle`. It is `filter` (`Dedupe.FilterByPosition`, index.tsx:23-25)
  with the callback `Dedupe.IsFirstIndex` (index.tsx:24), which compares
  `Dedupe.FindIndex` of the record's title with the record's own position. The lemmas
  in the `Dedupe` rows below state the properties of these definitions.
- `partition.dfy` (`Partition`): `partitionData` (index.tsx:28-40), defined by
  `Partition.PartitionData`. It runs two independent filters,
  `Partition.FilterByAdvicePrefix` (index.tsx:29-34) using `Partition.StartsWith`
  (index.tsx:30, 33) with the constants `TierOnePrefix` and `TierTwoPrefix`, and then
  deduplicates each list. The lemmas in the `Partition` rows below state the properties
  of these definitions. In particular, both tiers are proved equal to a reference
  definition, `Partition.FirstPerTitle`: the first record with the tier's prefix for each
  title, in input order.
- `postcode.dfy` (`Postcode`): `isValidPostcode` (index.tsx:41-44), defined by
  `Postcode.IsValidPostcode`, i.e. `/^3\d\d\d$/.test(s)`. The pattern `VIC_POSTCODE`
  (index.tsx:41) is `Postcode.VicPostcode`: an anchored list of single-character atoms
  (the literal `3`, then three `\d`). `Postcode.MatchesWhole` is the anchored test. In
  JavaScript `\d` is `[0-9]`. `$` is the end of input (no `m` flag), so a trailing newline
  is rejected. The lemmas in the `Postcode` rows below state the properties of these
  definitions.
- `app.dfy` (`App`): the component's two state cells (index.tsx:47-48) as the class
  `PageState`, with the input change handler `PostcodeChanged` (index.tsx:50-56). The
  three banner guards are `App.ShowsHighRisk` (index.tsx:86), `App.ShowsModerateRisk`
  (index.tsx:111) and `App.ShowsNoRisk` (index.tsx:129). `App.RenderedBanners`
  (index.tsx:86-145) gives the banners the page renders. `App.SelectBanner` is a
  first-match decision table, and the lemmas in the `App` rows below prove it renders the
  same.
- `wrappers.dfy` (`Wrappers`): `Option`, standing for JavaScript's `undefined`.

Two consequences of the code that are easy to miss:

- The page has no loading banner. While `data` is undefined none of the three guards
  (index.tsx:86, 111, 129) holds, so nothing is shown and `SelectBanner` returns `None`.
- `partitionData` is called on whatever records arrive (index.tsx:63), including none. The
  empty list gives two empty tiers (`PartitionEmpty`).

## Model

| member | source | states |
|---|---|---|
| `Dedupe.FindIndex` | index.tsx:24 | the result is -1 only when no record has the title; otherwise it is a position holding the title with no earlier position holding it |
| `Dedupe.FilterByPositionAt` | index.tsx:23-25 | `filter` with a positional callback returns the subsequence of the input at exactly the accepted positions, in input order |
| `Dedupe.DedupeFirstOccurrences` | index.tsx:22-26 | the deduplicated list is the subsequence of the input at exactly the positions that are the first of their title, in input order |
| `Dedupe.DedupeDistinctTitles` | index.tsx:22-26 | no two records of the deduplicated list share a title |
| `Dedupe.DedupeKeepsFirstOfEachTitle` | index.tsx:24 | for every input record, the first input record with its title is in the output |
| `Dedupe.DedupeKeepsOnlyFirsts` | index.tsx:23-25 | every output record is the first input record with its title |
| `Dedupe.DedupeTitles` | index.tsx:22-26 | the output has exactly the titles of the input |
| `Dedupe.DedupeOfDistinct` | index.tsx:22-26 | a list whose titles are already distinct is returned unchanged |
| `Dedupe.DedupeIdempotent` | index.tsx:22-26 | deduplicating twice equals deduplicating once |
| `Dedupe.DedupeDropsLaterSameTitle` | index.tsx:24 | of two records with the same title only the first survives |
| `Partition.FilterAt` | index.tsx:29-34 | the `startsWith` filter returns the subsequence of the input at exactly the positions whose advice title has the prefix, in input order |
| `Partition.FilterMembership` | index.tsx:29-34 | a record is in the filtered list iff it is in the input and its advice title has the prefix |
| `Partition.FilterAppend` | index.tsx:29-34 | filtering a concatenation is the concatenation of the filtered parts |
| `Partition.FilterAllMatch` | index.tsx:29-34 | a list whose records all have the prefix passes the filter unchanged |
| `Partition.FilterNoneMatch` | index.tsx:29-34 | a list with no record having the prefix filters to the empty list |
| `Partition.FirstInFilter` | index.tsx:28-40 | a record is first of its title in the filtered list iff it is the first record with the prefix and that title in the whole input |
| `Partition.TierIsFirstPerTitle` | index.tsx:28-40 | filter-then-dedupe yields, in input order, exactly the first record with the prefix of each title |
| `Partition.PartitionIsFirstPerTitle` | index.tsx:36-39 | `tierOne` and `tierTwo` both agree with that reference definition, for `"Tier 1"` and `"Tier 2"` respectively |
| `Partition.PartitionTiers` | index.tsx:28-40 | every tier-one record comes from the input and starts with "Tier 1", every tier-two record with "Tier 2"; each tier has distinct titles and the titles of all input records with its prefix |
| `Partition.PartitionEmpty` | index.tsx:28-40 | an empty input gives two empty tiers |
| `Partition.PrefixesExclusive` | index.tsx:29-34 | no advice title starts with both "Tier 1" and "Tier 2" |
| `Partition.TiersDisjoint` | index.tsx:28-40 | no record is in both tiers |
| `Partition.PartitionIdempotent` | index.tsx:28-40 | partitioning the concatenation of the two tiers gives back the same tiers |
| `Partition.PartitionExample` | index.tsx:28-40 | two tier-1 "A" records and a tier-2 "B" record give tier one = the first "A", tier two = "B" |
| `Postcode.MatchesWholePointwise` | index.tsx:41 | an anchored pattern of single-character atoms matches exactly the strings of its length whose characters match position by position |
| `Postcode.ValidPostcodeCharacters` | index.tsx:41-44 | a postcode is valid iff it has four characters, the first is `3` and the other three are ASCII digits |
| `Postcode.PostcodeExamples` | index.tsx:41-44 | "3068" is accepted; "2000", "30a8", "306", "30680", "3068\n" and "" are rejected |
| `App.PageState.constructor` | index.tsx:47-48 | the page starts with an empty postcode and undefined data |
| `App.PageState.PostcodeChanged` | index.tsx:50-56 | data always becomes undefined; the postcode becomes the new value if it is valid and is otherwise unchanged; the stored postcode stays empty or valid |
| `App.SelectBanner` | index.tsx:86-145 | no banner iff data is undefined; high risk iff tier one is non-empty; moderate iff only tier two is non-empty; no risk iff both are empty |
| `App.ExactlyOneBanner` | index.tsx:86-129 | with data present exactly one of the three guards holds and one banner is rendered; with data undefined none holds |
| `App.RenderedBannerIsSelected` | index.tsx:86-145 | the banners the page renders are exactly the one the decision table selects |

## Left out

- `getQueryForPostcode` and the `useEffect`/`fetch`/`resp.json()` chain (index.tsx:19-20, 58-66): URL construction and network I/O against the external dataset. The records that chain would hand to `partitionData` are the input of `PartitionData`. The resulting `setData` transition, and any race between overlapping fetches, are not modelled.
- The JSX markup, colours and styles in `App`, and `render` (index.tsx:68-159). This includes the "(and 2)" note and the tier-two list inside the red banner (lines 98 and 102-107), which lists are printed under each banner, and the dataset credit line. Only which banner is shown is modelled.
- The input's `maxLength={4}` (index.tsx:73): a browser-side limit. `PostcodeChanged` accepts any string, and validation rejects the longer ones anyway.
- FxxkBox.tsx and SiteList.tsx: presentation only. typings.ts: its `FxxkLevel` closures have no implementation in these files. Its record shapes are the `SiteData` and `PartitionedSiteData` datatypes.
- Records with missing or non-string fields: the model's record type has five strings, so the TypeError that `startsWith` would raise on a missing `Advice_title` is not modelled.
- `data?.tierOne?.length`: optional chaining on the tiers is not modelled, because `partitionData` always builds both lists.
- Regular expressions in general: only the anchored, fixed-length pattern of literal and `\d` atoms that `VIC_POSTCODE` uses is modelled.
