/**
  Concrete walks through the `Home` page, including the two interleavings the
  handlers leave open: a file picked while an upload is in flight, and a
  confirmation callback of an older attempt landing on a newer one.
*/
module Scenarios {
  import opened Home
  import opened HomeView

  const Report: File := File("report.xlsx", XlsxMime)
  const Notes: File := File("notes.txt", "text/plain")
  const Row: ResultItem := ResultItem("a@x.com", "https://v", "s")

  /** Select a spreadsheet, upload it, and receive one summary after the delay. */
  lemma HappyPath()
    ensures
      var s1 := HandleFileChange(Init, Report);
      var s2 := UploadStart(s1, "a");
      var s3 := UploadSettled(s2, 0, Ok200(()));
      var s4 := TimerFires(s3, 0);
      var s5 := ConfirmSettled(s4, 0, Ok200([Row]));
      && Render(s1).fileLine == Some("report.xlsx") && Render(s1).banners == []
      && s2.posts == [Upload(Report, "a")]
      && Render(s3).banners == [Success] && s3.timers == ["a"]
      && s4.queries == ["a"]
      && Render(s5) == Screen(None, [], Some([Row]))
      && s5.posts == [] && s5.timers == [] && s5.queries == []
  {
    var s1 := HandleFileChange(Init, Report);
    var s2 := UploadStart(s1, "a");
    var s3 := UploadSettled(s2, 0, Ok200(()));
    assert Render(s3).banners == [Success];
  }

  /** A text file is refused on its declared type and nothing is sent. */
  lemma WrongTypePath()
    ensures
      var s1 := HandleFileChange(Init, Notes);
      && Render(s1) == Screen(None, [WrongType], None)
      && Render(UploadStart(s1, "a")) == Screen(None, [NoFile], None)
      && UploadStart(s1, "a").posts == []
  {
  }

  /** The name's extension is never consulted: only the declared type is. */
  lemma ExtensionIgnored()
    ensures IsExcel(File("notes.txt", XlsxMime))
    ensures !IsExcel(File("report.xlsx", "text/plain"))
    ensures !IsExcel(File("report.xlsx", ""))
  {
  }

  /**
    A spreadsheet picked while the previous upload is in flight is dropped
    when that upload settles, whatever the server answered.
  */
  lemma PickDuringUploadIsLost(outcome: Outcome<()>)
    ensures
      var s1 := UploadStart(HandleFileChange(Init, Report), "a");
      var s2 := HandleFileChange(s1, File("second.xlsx", XlsxMime));
      var s3 := UploadSettled(s2, 0, outcome);
      && s2.selectedFile == Some(File("second.xlsx", XlsxMime))
      && s3.selectedFile == None
  {
  }

  /** Attempt "a" is sent and answered 200; its timer is scheduled. */
  function FirstAttemptWaiting(): (s: State)
    ensures s.timers == ["a"] && s.posts == [] && s.queries == []
    ensures OnlyAlert(s, Success)
  {
    var a1 := UploadStart(HandleFileChange(Init, Report), "a");
    assert a1.posts == [Upload(Report, "a")];
    UploadSettled(a1, 0, Ok200(()))
  }

  /** While attempt "a" waits for its timer, attempt "b" is sent and answered 200 too. */
  function TwoAttemptsWaiting(): (s: State)
    ensures s.timers == ["a", "b"] && s.posts == [] && s.queries == []
    ensures Render(s).banners == [Success]
  {
    var a3 := FirstAttemptWaiting();
    var b2 := UploadStart(HandleFileChange(a3, Report), "b");
    assert b2.posts == [Upload(Report, "b")] && b2.timers == ["a"];
    var b3 := UploadSettled(b2, 0, Ok200(()));
    assert OnlyAlert(b3, Success);
    b3
  }

  /**
    The older attempt's confirmation is answered after the newer upload
    succeeded (a state `TwoAttemptsWaiting` reaches): the stale callback
    replaces the page's items with the older attempt's data and lowers the
    success alert raised for the newer one, whose timer is still scheduled.
  */
  lemma StaleConfirmationOverwrites(s: State, older: Id, newer: Id, data: seq<ResultItem>)
    requires s.timers == [older, newer] && s.queries == [] && OnlyAlert(s, Success)
    ensures
      var fired := TimerFires(s, 0);
      var stale := ConfirmSettled(fired, 0, Ok200(data));
      && fired.queries == [older]
      && stale.items == data && NoAlerts(stale)
      && stale.timers == [newer] && stale.queries == []
  {
    var fired := TimerFires(s, 0);
    assert fired.timers == [newer] && fired.queries == [older];
  }

  /** The stale overwrite happens on the page: from the two waiting attempts "a" and "b". */
  lemma StaleConfirmationReachable(data: seq<ResultItem>)
    ensures
      var stale := ConfirmSettled(TimerFires(TwoAttemptsWaiting(), 0), 0, Ok200(data));
      && stale.items == data && NoAlerts(stale) && stale.timers == ["b"]
  {
    var s := TwoAttemptsWaiting();
    assert Success in Render(s).banners;
    StaleConfirmationOverwrites(s, "a", "b", data);
  }

  /**
    A confirmation request that throws writes nothing: the success alert
    raised by the upload stays up although no work is left outstanding.
  */
  lemma ConfirmThrowLeavesSuccessUp()
    ensures
      var s3 := UploadSettled(UploadStart(HandleFileChange(Init, Report), "a"), 0, Ok200(()));
      var s5 := ConfirmSettled(TimerFires(s3, 0), 0, Threw);
      && Render(s5) == Screen(None, [Success], None)
      && s5.posts == [] && s5.timers == [] && s5.queries == []
  {
    var s3 := UploadSettled(UploadStart(HandleFileChange(Init, Report), "a"), 0, Ok200(()));
    assert Render(s3).banners == [Success];
  }
}
