/**
  What the `Home` page renders from its state: the selected-file line, the
  alert banners in page order, and the list of summaries.
*/
module HomeView {
  import opened Home

  datatype Screen = Screen(
    // "Uploaded file: <name>" line
    fileLine: Option<string>,
    // the raised alerts, in the order the page lays them out
    banners: seq<Alert>,
    // the summaries panel, one entry per result item
    summaries: Option<seq<ResultItem>>
  )

  function Render(s: State): (v: Screen)
    ensures v.fileLine.Some? <==> s.selectedFile.Some?
    ensures v.fileLine.Some? ==> v.fileLine.value == s.selectedFile.value.name
    ensures |v.banners| == AlertCount(s)
    ensures forall a :: a in v.banners <==> Shows(s, a)
    ensures v.summaries.Some? <==> |s.items| > 0
    ensures v.summaries.Some? ==> v.summaries.value == s.items
  {
    var banners :=
      (if s.showSuccess then [Success] else [])
      + (if s.showServerError then [ServerError] else [])
      + (if s.showNoFile then [NoFile] else [])
      + (if s.showWrongType then [WrongType] else []);
    Screen(
      if s.selectedFile.Some? then Some(s.selectedFile.value.name) else None,
      banners,
      if |s.items| > 0 then Some(s.items) else None)
  }

  /** A page whose alert flags are mutually exclusive shows at most one banner. */
  lemma AtMostOneBanner(s: State)
    requires AtMostOneAlert(s)
    ensures |Render(s).banners| <= 1
  {
  }
}
