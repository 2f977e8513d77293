/**
 * The review page of src/pages/ReviewPage.tsx: a five-star rating leads to the
 * choice of external review platform, any other rating to the internal
 * feedback form.
 */
module ReviewPage {
  import opened Wrappers

  datatype Platform = Google | OpenRice

  const GoogleReviewLink := "https://www.google.com.hk/search?sca_esv=bf7982eb391d69ba&si=APYL9bs7Hg2KMLB-4tSoTdxuOx8BdRvHbByC_AuVpNyh0x2KzWSIIl45Oh4NTWPc-dLAGHTQ_bYEhXIzmwkVilTBtAx42SnW0ZP8Eh4q4zGHOr5Cu5sBBM0vrIU1L5YZltHklB4i0rbgY1dtSQGcTGFTKGn8oKQotA%3D%3D&q=Kimchi+Korean+Fusion+Reviews&sa=X&ved=2ahUKEwjk7JKeo6mMAxXKrlYBHdlrDKQQ0bkNegQIJhAD&biw=1912&bih=954&dpr=1"
  const OpenRiceReviewLink := "https://www.openrice.com/en/hongkong/review/write/712509"

  /** `EXTERNAL_REVIEW_LINKS[platform]`. */
  function ExternalReviewLink(p: Platform): (url: string)
    ensures p == Google ==> url == GoogleReviewLink
    ensures p == OpenRice ==> url == OpenRiceReviewLink
  {
    match p
    case Google => GoogleReviewLink
    case OpenRice => OpenRiceReviewLink
  }

  /** The two platforms lead to different pages. */
  lemma LinksDistinct()
    ensures ExternalReviewLink(Google) != ExternalReviewLink(OpenRice)
  {
    assert |OpenRiceReviewLink| == 56;
    assert |GoogleReviewLink| > 56;
  }

  /** What the page renders. */
  datatype View = PlatformSelection | RatingForm

  class Page {
    var showPlatformSelect: bool
    /** The route `navigate` was last called with. */
    var navigatedTo: Option<string>
    /** The value last assigned to `window.location.href`. */
    var locationHref: Option<string>

    constructor ()
      ensures !showPlatformSelect && navigatedTo == None && locationHref == None
    {
      showPlatformSelect := false;
      navigatedTo := None;
      locationHref := None;
    }

    /** Once the flag is set the platform choice replaces the rating form. */
    function CurrentView(): (v: View)
      reads this
      ensures v == PlatformSelection <==> showPlatformSelect
    {
      if showPlatformSelect then PlatformSelection else RatingForm
    }

    /** `handleReviewSubmit`: exactly 5 shows the platform choice; anything else goes to `/feedback`. */
    method HandleReviewSubmit(rating: int)
      modifies this
      ensures locationHref == old(locationHref)
      ensures rating == 5 ==> showPlatformSelect && navigatedTo == old(navigatedTo)
      ensures rating != 5 ==> showPlatformSelect == old(showPlatformSelect) && navigatedTo == Some("/feedback")
    {
      if rating == 5 {
        showPlatformSelect := true;
      } else {
        navigatedTo := Some("/feedback");
      }
    }

    /** `handlePlatformSelect`: leave for the platform's review page. */
    method HandlePlatformSelect(p: Platform)
      modifies this
      ensures locationHref == Some(ExternalReviewLink(p))
      ensures showPlatformSelect == old(showPlatformSelect) && navigatedTo == old(navigatedTo)
    {
      locationHref := Some(ExternalReviewLink(p));
    }
  }
}
