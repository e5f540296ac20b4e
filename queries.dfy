/** The CMS read layer: the homepage and pricing-tier fetches (their results
    given as inputs), `getSection`, and the flattening of the homepage's
    section list into named slots. */
module Queries {
  import opened Js

  /** One entry of a page's `sections` array; `fields` stands for the
      section-specific content, which this layer passes through untouched. */
  datatype Section = Section(key: string, sectionType: string, fields: map<string, string>)

  datatype Seo = Seo(title: string, description: string)

  datatype LandingPage = LandingPage(id: string, title: string, sections: seq<Section>, seo: Seo)

  datatype PricingTier = PricingTier(id: string, name: string, order: int)

  /** What an awaited `client.fetch` gave: a thrown error, or a value that
      may be `null`. */
  datatype Fetched<T> = FetchFailed | Returned(value: Option<T>)

  /** Why a page read failed: the fetch threw, or no homepage exists. */
  datatype QueryError = FetchError | HomepageNotFound

  datatype Result<T> = Ok(value: T) | Err(error: QueryError)

  /** `o` is what `Array.find` on the section type answers: the first section
      of type `t`, or nothing when there is none. */
  ghost predicate IsFirstOfType(sections: seq<Section>, t: string, o: Option<Section>)
  {
    if o.None? then forall i :: 0 <= i < |sections| ==> sections[i].sectionType != t
    else exists i :: 0 <= i < |sections| && sections[i] == o.value && sections[i].sectionType == t
           && forall j :: 0 <= j < i ==> sections[j].sectionType != t
  }

  /** `getSection(sections, type)`. */
  function GetSection(sections: seq<Section>, t: string): (o: Option<Section>)
    ensures IsFirstOfType(sections, t, o)
    ensures o.Some? ==> o.value.sectionType == t && o.value in sections
  {
    if sections == [] then None
    else if sections[0].sectionType == t then Some(sections[0])
    else
      var o := GetSection(sections[1..], t);
      assert forall i :: 1 <= i < |sections| ==> sections[i] == sections[1..][i - 1];
      if o.Some? then
        var i :| 0 <= i < |sections[1..]| && sections[1..][i] == o.value && sections[1..][i].sectionType == t
          && forall j :: 0 <= j < i ==> sections[1..][j].sectionType != t;
        assert sections[i + 1] == o.value;
        o
      else
        o
  }

  /** The first section of a type is unique: any answer with that property is
      `getSection`'s. */
  lemma FirstOfTypeUnique(sections: seq<Section>, t: string, o: Option<Section>)
    requires IsFirstOfType(sections, t, o)
    ensures o == GetSection(sections, t)
  {
    var g := GetSection(sections, t);
    if o.Some? && g.Some? {
      var i :| 0 <= i < |sections| && sections[i] == o.value && sections[i].sectionType == t
        && forall j :: 0 <= j < i ==> sections[j].sectionType != t;
      var k :| 0 <= k < |sections| && sections[k] == g.value && sections[k].sectionType == t
        && forall j :: 0 <= j < k ==> sections[j].sectionType != t;
      assert i == k;
    }
  }

  /** `getHomepageData()`: fails exactly when the fetch throws or finds nothing. */
  function GetHomepageData(fetched: Fetched<LandingPage>): (r: Result<LandingPage>)
    ensures r.Ok? <==> fetched.Returned? && fetched.value.Some?
    ensures r.Ok? ==> r.value == fetched.value.value
    ensures fetched == Returned(None) ==> r == Err(HomepageNotFound)
    ensures fetched.FetchFailed? ==> r == Err(FetchError)
  {
    match fetched
    case FetchFailed => Err(FetchError)
    case Returned(None) => Err(HomepageNotFound)
    case Returned(Some(page)) => Ok(page)
  }

  /** `getPricingTiers()`: a `null` result becomes the empty list, any list
      is passed through. */
  function GetPricingTiers(fetched: Fetched<seq<PricingTier>>): (r: Result<seq<PricingTier>>)
    ensures r.Ok? <==> fetched.Returned?
    ensures fetched.FetchFailed? ==> r == Err(FetchError)
    ensures fetched == Returned(None) ==> r == Ok([])
    ensures fetched.Returned? && fetched.value.Some? ==> r == Ok(fetched.value.value)
  {
    match fetched
    case FetchFailed => Err(FetchError)
    case Returned(data) => Ok(match data case Some(tiers) => tiers case None => [])
  }

  datatype LandingPageData = LandingPageData(
    seo: Seo,
    heroSection: Option<Section>,
    problemSection: Option<Section>,
    solutionSection: Option<Section>,
    howItWorksSection: Option<Section>,
    pricingSection: Option<Section>,
    pricingTiers: seq<PricingTier>,
    ctaSection: Option<Section>,
    footerSection: Option<Section>)

  /** Every named slot holds the first section of its type, or nothing. */
  ghost predicate SlotsFrom(sections: seq<Section>, d: LandingPageData)
  {
    && IsFirstOfType(sections, "heroSection", d.heroSection)
    && IsFirstOfType(sections, "problemSection", d.problemSection)
    && IsFirstOfType(sections, "solutionSection", d.solutionSection)
    && IsFirstOfType(sections, "howItWorksSection", d.howItWorksSection)
    && IsFirstOfType(sections, "pricingSection", d.pricingSection)
    && IsFirstOfType(sections, "ctaSection", d.ctaSection)
    && IsFirstOfType(sections, "footerSection", d.footerSection)
  }

  /** `getLandingPageData()`: both reads must succeed; the slots come from
      the homepage's sections, the SEO block and the tiers pass through. When
      both reads fail, the homepage's error is the one reported. */
  function GetLandingPageData(page: Fetched<LandingPage>, tiers: Fetched<seq<PricingTier>>)
    : (r: Result<LandingPageData>)
    ensures r.Ok? <==> GetHomepageData(page).Ok? && GetPricingTiers(tiers).Ok?
    ensures r.Ok? ==>
      && SlotsFrom(GetHomepageData(page).value.sections, r.value)
      && r.value.seo == GetHomepageData(page).value.seo
      && r.value.pricingTiers == GetPricingTiers(tiers).value
  {
    match GetHomepageData(page)
    case Err(e) => Err(e)
    case Ok(homepage) =>
      match GetPricingTiers(tiers)
      case Err(e) => Err(e)
      case Ok(pricingTiers) =>
        var s := homepage.sections;
        Ok(LandingPageData(
          homepage.seo,
          GetSection(s, "heroSection"),
          GetSection(s, "problemSection"),
          GetSection(s, "solutionSection"),
          GetSection(s, "howItWorksSection"),
          GetSection(s, "pricingSection"),
          pricingTiers,
          GetSection(s, "ctaSection"),
          GetSection(s, "footerSection")))
  }
}
