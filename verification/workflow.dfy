/**
  Runs of the `Home` page: sequences of user clicks, settled requests and
  fired timers, and the invariants every run keeps.

  The id generator is assumed to mint an id that no outstanding request or
  timer already carries; a click whose id breaks that assumption is not
  enabled.
*/
module Workflow {
  import opened Seqs
  import opened Home

  /** The ids carried by a pool of upload requests, in order. */
  function PostIds(ps: seq<Upload>): (ids: seq<Id>)
    ensures |ids| == |ps|
    ensures forall k :: 0 <= k < |ps| ==> ids[k] == ps[k].id
  {
    seq(|ps|, k requires 0 <= k < |ps| => ps[k].id)
  }

  /** Every attempt id that still has a request or a timer outstanding, with multiplicity. */
  function Pending(s: State): multiset<Id> {
    multiset(PostIds(s.posts)) + multiset(s.timers) + multiset(s.queries)
  }

  ghost predicate NoDuplicates(m: multiset<Id>) {
    forall x :: m[x] <= 1
  }

  /** What holds of every state the page can reach. */
  ghost predicate Wf(s: State) {
    AtMostOneAlert(s) && NoDuplicates(Pending(s))
  }

  lemma InitWf()
    ensures Wf(Init) && Pending(Init) == multiset{}
  {
  }

  lemma PostIdsRemove(ps: seq<Upload>, i: nat)
    requires i < |ps|
    ensures PostIds(Remove(ps, i)) == Remove(PostIds(ps), i)
  {
  }

  lemma PostIdsAppend(ps: seq<Upload>, u: Upload)
    ensures PostIds(ps + [u]) == PostIds(ps) + [u.id]
  {
  }

  /** Starting an upload adds its id to the outstanding work exactly when a file was selected. */
  lemma UploadStartPending(s: State, id: Id)
    ensures s.selectedFile == None ==> Pending(UploadStart(s, id)) == Pending(s)
    ensures s.selectedFile != None ==> Pending(UploadStart(s, id)) == Pending(s) + multiset{id}
  {
    if s.selectedFile != None {
      PostIdsAppend(s.posts, Upload(s.selectedFile.value, id));
    }
  }

  /** A 200 hands the attempt's id on to its timer; any other outcome retires the id. */
  lemma UploadSettledPending(s: State, i: nat, outcome: Outcome<()>)
    requires i < |s.posts|
    ensures outcome.Ok200? ==> Pending(UploadSettled(s, i, outcome)) == Pending(s)
    ensures !outcome.Ok200? ==>
      Pending(UploadSettled(s, i, outcome)) + multiset{s.posts[i].id} == Pending(s)
  {
    PostIdsRemove(s.posts, i);
    assert PostIds(s.posts)[i] == s.posts[i].id;
  }

  /** A firing timer hands its id on to the confirmation request. */
  lemma TimerFiresPending(s: State, i: nat)
    requires i < |s.timers|
    ensures Pending(TimerFires(s, i)) == Pending(s)
  {
  }

  /** A settled confirmation retires its id, whatever the outcome. */
  lemma ConfirmSettledPending(s: State, i: nat, outcome: Outcome<seq<ResultItem>>)
    requires i < |s.queries|
    ensures Pending(ConfirmSettled(s, i, outcome)) + multiset{s.queries[i]} == Pending(s)
  {
  }

  /** Something that can happen to the page. */
  datatype Event =
    | PickFile(file: File)
    | ClickUpload(freshId: Id)
    | PostSettles(post: nat, postOutcome: Outcome<()>)
    | TimerElapses(timer: nat)
    | ConfirmSettles(query: nat, confirmOutcome: Outcome<seq<ResultItem>>)

  /** Whether `e` can happen in `s`: it names outstanding work, and a minted id is fresh. */
  predicate Enabled(s: State, e: Event) {
    match e
    case PickFile(_) => true
    case ClickUpload(id) => s.selectedFile == None || id !in Pending(s)
    case PostSettles(i, _) => i < |s.posts|
    case TimerElapses(i) => i < |s.timers|
    case ConfirmSettles(i, _) => i < |s.queries|
  }

  function Apply(s: State, e: Event): State
    requires Enabled(s, e)
  {
    match e
    case PickFile(f) => HandleFileChange(s, f)
    case ClickUpload(id) => UploadStart(s, id)
    case PostSettles(i, o) => UploadSettled(s, i, o)
    case TimerElapses(i) => TimerFires(s, i)
    case ConfirmSettles(i, o) => ConfirmSettled(s, i, o)
  }

  lemma NoDuplicatesSub(m: multiset<Id>, n: multiset<Id>)
    requires NoDuplicates(m + n)
    ensures NoDuplicates(m)
  {
    forall x ensures m[x] <= 1 {
      assert (m + n)[x] == m[x] + n[x];
    }
  }

  lemma NoDuplicatesAdd(m: multiset<Id>, id: Id)
    requires NoDuplicates(m) && id !in m
    ensures NoDuplicates(m + multiset{id})
  {
    forall x ensures (m + multiset{id})[x] <= 1 {
      assert (m + multiset{id})[x] == m[x] + multiset{id}[x];
    }
  }

  lemma HandleFileChangeKeepsWf(s: State, f: File)
    requires Wf(s)
    ensures Wf(HandleFileChange(s, f))
  {
    assert Pending(HandleFileChange(s, f)) == Pending(s);
  }

  lemma UploadStartKeepsWf(s: State, id: Id)
    requires Wf(s) && (s.selectedFile == None || id !in Pending(s))
    ensures Wf(UploadStart(s, id))
  {
    UploadStartPending(s, id);
    if s.selectedFile != None {
      NoDuplicatesAdd(Pending(s), id);
    }
  }

  lemma UploadSettledKeepsWf(s: State, i: nat, outcome: Outcome<()>)
    requires Wf(s) && i < |s.posts|
    ensures Wf(UploadSettled(s, i, outcome))
  {
    UploadSettledPending(s, i, outcome);
    if !outcome.Ok200? {
      NoDuplicatesSub(Pending(UploadSettled(s, i, outcome)), multiset{s.posts[i].id});
    }
  }

  lemma TimerFiresKeepsWf(s: State, i: nat)
    requires Wf(s) && i < |s.timers|
    ensures Wf(TimerFires(s, i))
  {
    TimerFiresPending(s, i);
  }

  lemma ConfirmSettledKeepsWf(s: State, i: nat, outcome: Outcome<seq<ResultItem>>)
    requires Wf(s) && i < |s.queries|
    ensures Wf(ConfirmSettled(s, i, outcome))
  {
    ConfirmSettledPending(s, i, outcome);
    NoDuplicatesSub(Pending(ConfirmSettled(s, i, outcome)), multiset{s.queries[i]});
  }

  /** Every handler keeps at most one alert raised and the outstanding ids distinct. */
  lemma ApplyKeepsWf(s: State, e: Event)
    requires Wf(s) && Enabled(s, e)
    ensures Wf(Apply(s, e))
  {
    match e
    case PickFile(f) => HandleFileChangeKeepsWf(s, f);
    case ClickUpload(id) => UploadStartKeepsWf(s, id);
    case PostSettles(i, o) => UploadSettledKeepsWf(s, i, o);
    case TimerElapses(i) => TimerFiresKeepsWf(s, i);
    case ConfirmSettles(i, o) => ConfirmSettledKeepsWf(s, i, o);
  }

  /** How one event changes the number of scheduled timers. */
  lemma ApplyTimers(s: State, e: Event)
    requires Enabled(s, e)
    ensures |Apply(s, e).timers| + (if e.TimerElapses? then 1 else 0)
         == |s.timers| + (if e.PostSettles? && e.postOutcome.Ok200? then 1 else 0)
  {
    match e
    case PickFile(f) =>
    case ClickUpload(id) =>
    case PostSettles(i, o) =>
    case TimerElapses(i) =>
    case ConfirmSettles(i, o) =>
  }

  /** The state after `events`, or None if one of them is not enabled when it comes. */
  function Run(s: State, events: seq<Event>): (r: Option<State>)
    requires Wf(s)
    ensures r.Some? ==> Wf(r.value)
    decreases |events|
  {
    if events == [] then Some(s)
    else if !Enabled(s, events[0]) then None
    else
      ApplyKeepsWf(s, events[0]);
      Run(Apply(s, events[0]), events[1..])
  }

  /** Alerts are mutually exclusive in every state reachable from mounting. */
  lemma ReachableAtMostOneAlert(events: seq<Event>)
    ensures Run(Init, events).Some? ==> AtMostOneAlert(Run(Init, events).value)
  {
    InitWf();
  }

  /**
    A firing timer leaves no timer behind for its attempt, so with distinct
    ids each attempt's confirmation request is sent at most once.
  */
  lemma TimerFiresOnce(s: State, i: nat)
    requires Wf(s) && i < |s.timers|
    ensures s.timers[i] !in TimerFires(s, i).timers
    ensures multiset(TimerFires(s, i).queries)[s.timers[i]] == 1
  {
    var id := s.timers[i];
    assert Pending(s)[id] == multiset(PostIds(s.posts))[id] + multiset(s.timers)[id] + multiset(s.queries)[id];
    assert multiset(s.timers)[id] == 1;
    assert multiset(s.queries)[id] == 0;
  }

  /** An upload that does not answer 200 ends its attempt: nothing outstanding carries its id. */
  lemma FailedUploadSchedulesNothing(s: State, i: nat, outcome: Outcome<()>)
    requires Wf(s) && i < |s.posts| && !outcome.Ok200?
    ensures s.posts[i].id !in Pending(UploadSettled(s, i, outcome))
  {
    var id := s.posts[i].id;
    UploadSettledPending(s, i, outcome);
    assert (Pending(UploadSettled(s, i, outcome)) + multiset{id})[id] == Pending(s)[id];
  }

  /** A settled confirmation ends its attempt: nothing outstanding carries its id. */
  lemma ConfirmEndsAttempt(s: State, i: nat, outcome: Outcome<seq<ResultItem>>)
    requires Wf(s) && i < |s.queries|
    ensures s.queries[i] !in Pending(ConfirmSettled(s, i, outcome))
  {
    var id := s.queries[i];
    ConfirmSettledPending(s, i, outcome);
    assert (Pending(ConfirmSettled(s, i, outcome)) + multiset{id})[id] == Pending(s)[id];
  }

  /**
    One click on Upload with a file selected, followed by its request
    settling: the file is always released, and a confirmation is scheduled
    for the minted id exactly when the server answers 200.
  */
  lemma UploadAttempt(s: State, id: Id, outcome: Outcome<()>)
    requires s.selectedFile != None
    ensures
      var t := UploadStart(s, id);
      var r := UploadSettled(t, |t.posts| - 1, outcome);
      && t.posts[|t.posts| - 1] == Upload(s.selectedFile.value, id)
      && r.selectedFile == None
      && r.items == s.items
      && r.posts == s.posts && r.queries == s.queries
      && (outcome.Ok200? ==> OnlyAlert(r, Success) && r.timers == s.timers + [id])
      && (!outcome.Ok200? ==> OnlyAlert(r, ServerError) && r.timers == s.timers)
  {
    var t := UploadStart(s, id);
    assert Remove(t.posts, |t.posts| - 1) == s.posts;
  }

  /**
    A whole attempt that succeeds: upload answered 200, timer fired,
    confirmation answered 200 with `data`. The confirmation asks about the
    minted id, the page ends with `data` as its items and no alert, and the
    outstanding work is as before the click.
  */
  lemma SuccessfulAttempt(s: State, id: Id, data: seq<ResultItem>)
    requires s.selectedFile != None
    ensures
      var t1 := UploadStart(s, id);
      var t2 := UploadSettled(t1, |t1.posts| - 1, Ok200(()));
      var t3 := TimerFires(t2, |t2.timers| - 1);
      var r := ConfirmSettled(t3, |t3.queries| - 1, Ok200(data));
      && t3.queries[|t3.queries| - 1] == id
      && r.items == data && NoAlerts(r) && r.selectedFile == None
      && SamePools(r, s)
  {
    UploadAttempt(s, id, Ok200(()));
    var t1 := UploadStart(s, id);
    var t2 := UploadSettled(t1, |t1.posts| - 1, Ok200(()));
    assert Remove(t2.timers, |t2.timers| - 1) == s.timers;
    var t3 := TimerFires(t2, |t2.timers| - 1);
    assert Remove(t3.queries, |t3.queries| - 1) == s.queries;
  }

  /** Upload requests answered 200 among `events`: each schedules one confirmation. */
  function Scheduled(events: seq<Event>): nat {
    if events == [] then 0
    else (if events[0].PostSettles? && events[0].postOutcome.Ok200? then 1 else 0) + Scheduled(events[1..])
  }

  /** Timers that fire among `events`. */
  function Fired(events: seq<Event>): nat {
    if events == [] then 0
    else (if events[0].TimerElapses? then 1 else 0) + Fired(events[1..])
  }

  /**
    Timers are only created by uploads answered 200 and only removed by
    firing, never cancelled: a failed upload schedules no confirmation.
  */
  lemma {:induction false} RunTimersBalance(s: State, events: seq<Event>)
    requires Wf(s) && Run(s, events).Some?
    ensures |Run(s, events).value.timers| + Fired(events) == |s.timers| + Scheduled(events)
    decreases |events|
  {
    if events != [] {
      ApplyKeepsWf(s, events[0]);
      ApplyTimers(s, events[0]);
      RunTimersBalance(Apply(s, events[0]), events[1..]);
    }
  }

  /** Whether an event may write the result items. */
  predicate WritesItems(e: Event) {
    e.PickFile? || (e.ConfirmSettles? && e.confirmOutcome.Ok200?)
  }

  /** Only picking a file or a confirmation answered 200 changes the result items. */
  lemma {:induction false} RunItemsFrame(s: State, events: seq<Event>)
    requires Wf(s) && Run(s, events).Some?
    requires forall k :: 0 <= k < |events| ==> !WritesItems(events[k])
    ensures Run(s, events).value.items == s.items
    decreases |events|
  {
    if events != [] {
      ApplyKeepsWf(s, events[0]);
      assert !WritesItems(events[0]);
      assert forall k :: 0 <= k < |events[1..]| ==> events[1..][k] == events[k + 1];
      RunItemsFrame(Apply(s, events[0]), events[1..]);
    }
  }
}
