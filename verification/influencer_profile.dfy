/**
 * The profile page's choice of influencer: the first catalogue entry whose
 * id equals the route parameter, else the first catalogue entry, else the
 * "Influencer not found" view (src/pages/InfluencerProfile.tsx). The page's
 * local `formatNumber` and `getPlatformColor` are the ones of the card.
 */
module InfluencerProfile {
  import opened Wrappers
  import opened IndexPage

  /** `findIndex`: the position of the first entry with the given id, if any. */
  function FirstWithId(catalogue: seq<Influencer>, id: string): (r: Option<nat>)
    ensures r.Some? ==> r.value < |catalogue| && catalogue[r.value].id == id
    ensures r.Some? ==> forall k :: 0 <= k < r.value ==> catalogue[k].id != id
    ensures r.None? ==> forall k :: 0 <= k < |catalogue| ==> catalogue[k].id != id
  {
    if catalogue == [] then None
    else if catalogue[0].id == id then Some(0)
    else match FirstWithId(catalogue[1..], id)
      case None => None
      case Some(k) => Some(k + 1)
  }

  /**
   * `influencerData.find(inf => inf.id === id) || influencerData[0]`. The route
   * parameter may be missing (`undefined`), which equals no id.
   */
  function LookupProfile(catalogue: seq<Influencer>, routeId: Option<string>): (r: Option<Influencer>)
    ensures r.None? <==> catalogue == []
    ensures forall j :: 0 <= j < |catalogue| && routeId == Some(catalogue[j].id)
                        && (forall k :: 0 <= k < j ==> catalogue[k].id != catalogue[j].id)
                        ==> r == Some(catalogue[j])
    ensures catalogue != [] && (forall j :: 0 <= j < |catalogue| ==> routeId != Some(catalogue[j].id))
            ==> r == Some(catalogue[0])
  {
    var found := if routeId.Some? then FirstWithId(catalogue, routeId.value) else None;
    if found.Some? then Some(catalogue[found.value])
    else if catalogue != [] then Some(catalogue[0])
    else None
  }

  /** What the page renders. */
  datatype ProfileView = NotFound | Shown(influencer: Influencer, verifiedText: string)

  /** The page: "Influencer not found" exactly when the catalogue is empty; "Verified: Yes" exactly for verified entries. */
  function View(catalogue: seq<Influencer>, routeId: Option<string>): (v: ProfileView)
    ensures v.NotFound? <==> catalogue == []
    ensures v.Shown? ==> v.influencer in catalogue
    ensures v.Shown? ==> (v.verifiedText == "Yes" <==> v.influencer.verified)
    ensures v.Shown? ==> (v.verifiedText == "Yes" || v.verifiedText == "No")
  {
    match LookupProfile(catalogue, routeId)
    case None => NotFound
    case Some(x) =>
      assert "No" != "Yes" by { assert "No"[0] != "Yes"[0]; }
      Shown(x, if x.verified then "Yes" else "No")
  }

  /** A missing route id shows the first catalogue entry. */
  lemma MissingIdShowsFirst(catalogue: seq<Influencer>)
    requires catalogue != []
    ensures View(catalogue, None) == Shown(catalogue[0], if catalogue[0].verified then "Yes" else "No")
  {
  }
}
