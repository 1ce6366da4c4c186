/**
  The upload workflow of the `Home` page component: six pieces of component
  state (the selected file, the result items and four alert flags) driven by
  the file-selection handler, the upload handler and the delayed confirmation
  callback that a successful upload schedules.

  Every handler is a pure transition on an immutable `State`. The network,
  the id generator and the timer are outside the model: their results are
  parameters. Each handler that awaits is split at its `await`, so that other
  handlers can run while a request is in flight; the requests and timers that
  are still outstanding are kept in three pools (`posts`, `timers`, `queries`).
*/
module Home {
  import opened Seqs

  /** A correlation id, as minted by the id generator for one upload attempt. */
  type Id = string

  /** The only declared file type the page accepts. */
  const XlsxMime: string := "application/vnd.openxmlformats-officedocument.spreadsheetml.sheet"

  /** Milliseconds between a 200 upload response and its confirmation query. */
  const ConfirmDelayMs: nat := 15000

  datatype Option<T> = None | Some(value: T)

  /** A file chosen in the browser's picker: its name and declared MIME type. */
  datatype File = File(name: string, mimeType: string)

  /** One record of the confirmation response's `data` array. */
  datatype ResultItem = ResultItem(email: string, url: string, summary: string)

  /** An upload request: the form fields `file` and `id`. */
  datatype Upload = Upload(file: File, id: Id)

  /** How an HTTP call ends: status 200 with a body, another status, or an exception. */
  datatype Outcome<T> = Ok200(data: T) | OtherStatus | Threw

  datatype Alert = NoFile | WrongType | Success | ServerError

  datatype State = State(
    selectedFile: Option<File>,
    items: seq<ResultItem>,
    showNoFile: bool,
    showWrongType: bool,
    showSuccess: bool,
    showServerError: bool,
    // upload requests sent and not yet answered
    posts: seq<Upload>,
    // confirmation callbacks scheduled and not yet fired, by attempt id
    timers: seq<Id>,
    // confirmation requests sent and not yet answered, by attempt id
    queries: seq<Id>
  )

  /** The state the component mounts with. */
  const Init: State := State(None, [], false, false, false, false, [], [], [])

  function Shows(s: State, a: Alert): bool {
    match a
    case NoFile => s.showNoFile
    case WrongType => s.showWrongType
    case Success => s.showSuccess
    case ServerError => s.showServerError
  }

  /** How many of the four alert flags are raised. */
  function AlertCount(s: State): nat {
    (if s.showNoFile then 1 else 0) + (if s.showWrongType then 1 else 0)
    + (if s.showSuccess then 1 else 0) + (if s.showServerError then 1 else 0)
  }

  predicate NoAlerts(s: State) {
    AlertCount(s) == 0
  }

  predicate OnlyAlert(s: State, a: Alert) {
    Shows(s, a) && AlertCount(s) == 1
  }

  predicate AtMostOneAlert(s: State) {
    AlertCount(s) <= 1
  }

  /** The page shows the same thing in `s` and `t`: file, items and alerts agree. */
  predicate SameView(s: State, t: State) {
    && s.selectedFile == t.selectedFile
    && s.items == t.items
    && s.showNoFile == t.showNoFile
    && s.showWrongType == t.showWrongType
    && s.showSuccess == t.showSuccess
    && s.showServerError == t.showServerError
  }

  /** `s` and `t` have the same outstanding requests and timers. */
  predicate SamePools(s: State, t: State) {
    s.posts == t.posts && s.timers == t.timers && s.queries == t.queries
  }

  /** Whether a picked file is accepted: by its declared type alone. */
  predicate IsExcel(f: File) {
    f.mimeType == XlsxMime
  }

  /** The file name plays no part in acceptance: only the declared type does. */
  lemma IsExcelByTypeAlone(f: File, g: File)
    requires f.mimeType == g.mimeType
    ensures IsExcel(f) == IsExcel(g)
  {
  }

  /** Lowers all four alert flags and touches nothing else. */
  function HideAllAlerts(s: State): (r: State)
    ensures NoAlerts(r)
    ensures r.selectedFile == s.selectedFile && r.items == s.items
    ensures SamePools(r, s)
  {
    s.(showSuccess := false).(showWrongType := false).(showNoFile := false).(showServerError := false)
  }

  /** The picker's change handler, for a picker that yields a file. */
  function HandleFileChange(s: State, f: File): (r: State)
    ensures r.items == []
    ensures IsExcel(f) ==> r.selectedFile == Some(f) && NoAlerts(r)
    ensures !IsExcel(f) ==> r.selectedFile == None && OnlyAlert(r, WrongType)
    ensures SamePools(r, s)
  {
    var cleared := s.(items := []);
    if IsExcel(f) then
      HideAllAlerts(cleared).(selectedFile := Some(f))
    else
      HideAllAlerts(cleared.(selectedFile := None)).(showWrongType := true)
  }

  /**
    The upload click handler up to its `await`: with no file selected it
    raises the no-file alert and stops; otherwise it sends the selected file
    together with the freshly minted `id`.
  */
  function UploadStart(s: State, id: Id): (r: State)
    ensures s.selectedFile == None ==>
      && OnlyAlert(r, NoFile)
      && r.selectedFile == None
      && r.items == s.items
      && SamePools(r, s)
    ensures s.selectedFile != None ==>
      && SameView(r, s)
      && r.posts == s.posts + [Upload(s.selectedFile.value, id)]
      && r.timers == s.timers && r.queries == s.queries
  {
    if s.selectedFile.None? then
      HideAllAlerts(s).(selectedFile := None).(showNoFile := true)
    else
      s.(posts := s.posts + [Upload(s.selectedFile.value, id)])
  }

  /**
    The upload click handler after its `await`, when the request at position
    `i` of the pool settles with `outcome`. A 200 schedules the confirmation
    callback for the attempt's own id; every path clears the selected file.
  */
  function UploadSettled(s: State, i: nat, outcome: Outcome<()>): (r: State)
    requires i < |s.posts|
    ensures r.selectedFile == None && r.items == s.items
    ensures r.posts == Remove(s.posts, i) && r.queries == s.queries
    ensures outcome.Ok200? ==> OnlyAlert(r, Success) && r.timers == s.timers + [s.posts[i].id]
    ensures !outcome.Ok200? ==> OnlyAlert(r, ServerError) && r.timers == s.timers
  {
    var attempt := s.posts[i];
    var s1 := s.(posts := Remove(s.posts, i));
    var s2 :=
      match outcome
      case Ok200(_) =>
        HideAllAlerts(s1).(showSuccess := true).(timers := s1.timers + [attempt.id])
      case OtherStatus =>
        HideAllAlerts(s1).(showServerError := true)
      case Threw =>
        HideAllAlerts(s1).(showServerError := true);
    s2.(selectedFile := None)
  }

  /**
    The confirmation callback at position `i` fires: it sends the
    confirmation request for the id it was scheduled with, and then waits.
  */
  function TimerFires(s: State, i: nat): (r: State)
    requires i < |s.timers|
    ensures SameView(r, s) && r.posts == s.posts
    ensures r.timers == Remove(s.timers, i)
    ensures r.queries == s.queries + [s.timers[i]]
  {
    s.(timers := Remove(s.timers, i), queries := s.queries + [s.timers[i]])
  }

  /**
    The confirmation callback after its `await`, when the request at position
    `i` of the pool settles with `outcome`. The callback has no `try`, so an
    exception ends it before any state is written.
  */
  function ConfirmSettled(s: State, i: nat, outcome: Outcome<seq<ResultItem>>): (r: State)
    requires i < |s.queries|
    ensures r.posts == s.posts && r.timers == s.timers
    ensures r.queries == Remove(s.queries, i)
    ensures outcome.Ok200? ==> r.items == outcome.data && NoAlerts(r) && r.selectedFile == None
    ensures outcome.OtherStatus? ==> r.items == s.items && OnlyAlert(r, ServerError) && r.selectedFile == None
    ensures outcome.Threw? ==> SameView(r, s)
  {
    var s1 := s.(queries := Remove(s.queries, i));
    match outcome
    case Threw => s1
    case Ok200(data) =>
      HideAllAlerts(s1).(showSuccess := true).(items := data)
        .(showSuccess := false).(selectedFile := None)
    case OtherStatus =>
      HideAllAlerts(s1).(showServerError := true)
        .(showSuccess := false).(selectedFile := None)
  }

  /** Picking the same file twice in a row lands where picking it once does. */
  lemma ReselectIdempotent(s: State, f: File)
    ensures HandleFileChange(HandleFileChange(s, f), f) == HandleFileChange(s, f)
  {
  }
}
