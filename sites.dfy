/** The exposure-site records the page receives, and facts about lists of them. */
module Sites {

  /** One exposure-site record. The fields are the dataset's `Site_title`,
      `Site_streetaddress`, `Exposure_date_dtm`, `Exposure_time` and `Advice_title`. */
  datatype SiteData = SiteData(
    siteTitle: string,
    siteStreetAddress: string,
    exposureDate: string,
    exposureTime: string,
    adviceTitle: string)

  /** The records split into the two severity tiers. */
  datatype PartitionedSiteData = PartitionedSiteData(tierOne: seq<SiteData>, tierTwo: seq<SiteData>)

  /** The titles that occur in a list of records. */
  function Titles(s: seq<SiteData>): set<string>
  {
    set x | x in s :: x.siteTitle
  }

  /** No two records of `s` share a title. */
  predicate DistinctTitles(s: seq<SiteData>)
  {
    forall a, b :: 0 <= a < b < |s| ==> s[a].siteTitle != s[b].siteTitle
  }

  /** `idx` is strictly increasing. */
  ghost predicate Increasing(idx: seq<nat>)
  {
    forall a, b :: 0 <= a < b < |idx| ==> idx[a] < idx[b]
  }

  /** `r` is the subsequence of `s` taken at the strictly increasing positions `idx`:
      every record of `r` comes from `s`, in the same relative order. */
  ghost predicate SubsequenceAt(r: seq<SiteData>, s: seq<SiteData>, idx: seq<nat>)
  {
    && |idx| == |r|
    && (forall k :: 0 <= k < |idx| ==> idx[k] < |s| && r[k] == s[idx[k]])
    && Increasing(idx)
  }

  /** Appending a later position of `s` extends a subsequence of `s`. */
  lemma SubsequenceExtend(r: seq<SiteData>, s: seq<SiteData>, idx: seq<nat>, i: nat)
    requires SubsequenceAt(r, s, idx)
    requires i < |s|
    requires forall k :: 0 <= k < |idx| ==> idx[k] < i
    ensures SubsequenceAt(r + [s[i]], s, idx + [i])
  {
  }
}
