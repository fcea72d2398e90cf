/** The page component `App`: its two state cells and the banner it shows for them. */
module App {
  import opened Wrappers
  import opened Sites
  import opened Postcode

  /** The state cells `postcode` (initially empty) and `data` (initially undefined). */
  class PageState {
    var postcode: string
    var data: Option<PartitionedSiteData>

    /** Only a valid postcode is ever stored; before the first one it is empty. */
    ghost predicate Valid()
      reads this
    {
      postcode == "" || IsValidPostcode(postcode)
    }

    constructor ()
      ensures Valid()
      ensures postcode == "" && data == None
    {
      postcode := "";
      data := None;
    }

    /** The input's change handler: clear the data, then store the new value if it is valid. */
    method PostcodeChanged(newValue: string)
      requires Valid()
      modifies this
      ensures Valid()
      ensures data == None
      ensures postcode == if IsValidPostcode(newValue) then newValue else old(postcode)
    {
      data := None;
      if IsValidPostcode(newValue) {
        postcode := newValue;
      }
    }
  }

  /** The three banners: red "U R FXXK", orange "U R A BIT FXXK", green "U R NOT FXXK". */
  datatype Banner = HighRisk | ModerateRisk | NoRisk

  /** `data?.tierOne?.length > 0` */
  predicate ShowsHighRisk(data: Option<PartitionedSiteData>)
  {
    data.Some? && |data.value.tierOne| > 0
  }

  /** `(data?.tierOne?.length === 0) && (data?.tierTwo?.length > 0)` */
  predicate ShowsModerateRisk(data: Option<PartitionedSiteData>)
  {
    data.Some? && |data.value.tierOne| == 0 && |data.value.tierTwo| > 0
  }

  /** `(data?.tierOne?.length === 0) && (data?.tierTwo?.length === 0)` */
  predicate ShowsNoRisk(data: Option<PartitionedSiteData>)
  {
    data.Some? && |data.value.tierOne| == 0 && |data.value.tierTwo| == 0
  }

  /** The banners the page renders, top to bottom: each fragment whose guard holds. */
  function RenderedBanners(data: Option<PartitionedSiteData>): seq<Banner>
  {
    (if ShowsHighRisk(data) then [HighRisk] else [])
    + (if ShowsModerateRisk(data) then [ModerateRisk] else [])
    + (if ShowsNoRisk(data) then [NoRisk] else [])
  }

  /** The banner as a first-match decision table over the data: nothing before data
      arrives; otherwise high when tier one has a site, else moderate when tier two
      has one, else no risk. */
  function SelectBanner(data: Option<PartitionedSiteData>): (r: Option<Banner>)
    ensures r.None? <==> data.None?
    ensures r == Some(HighRisk) <==> data.Some? && data.value.tierOne != []
    ensures r == Some(ModerateRisk) <==> data.Some? && data.value.tierOne == [] && data.value.tierTwo != []
    ensures r == Some(NoRisk) <==> data.Some? && data.value.tierOne == [] && data.value.tierTwo == []
  {
    match data
    case None => None
    case Some(p) =>
      if |p.tierOne| > 0 then Some(HighRisk)
      else if |p.tierTwo| > 0 then Some(ModerateRisk)
      else Some(NoRisk)
  }

  /** Once data has arrived exactly one banner guard holds; before, none does. */
  lemma ExactlyOneBanner(data: Option<PartitionedSiteData>)
    ensures data.Some? ==> (ShowsHighRisk(data) || ShowsModerateRisk(data) || ShowsNoRisk(data))
    ensures !(ShowsHighRisk(data) && ShowsModerateRisk(data))
    ensures !(ShowsHighRisk(data) && ShowsNoRisk(data))
    ensures !(ShowsModerateRisk(data) && ShowsNoRisk(data))
    ensures data.None? ==> !ShowsHighRisk(data) && !ShowsModerateRisk(data) && !ShowsNoRisk(data)
    ensures |RenderedBanners(data)| == if data.Some? then 1 else 0
  {
  }

  /** The page renders exactly the banner the decision table selects. */
  lemma RenderedBannerIsSelected(data: Option<PartitionedSiteData>)
    ensures RenderedBanners(data) == match SelectBanner(data) case None => [] case Some(b) => [b]
  {
  }
}
