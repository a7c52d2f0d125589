/**
 * The browser side of a generation: two interval-driven pollers of
 * `GET /api/tasks/:id`. The overlay poller waits for one task; the room
 * poller, on every tick, queries the room tasks not yet done, splits them
 * into done and pending, rebuilds the task list and the gallery, and stops
 * its timer once every task is done. The status service is a parameter:
 * a map from task id to what the query yields in that tick, a reply or a
 * rejection.
 */
module Polling {
  import opened Wrappers
  import opened JsText
  import opened Handlers

  /** The body of a task query as the client reads it; an absent `output` is the empty list. */
  datatype StatusReply = StatusReply(status: string, output: seq<string>)

  /**
   * What awaiting one task query yields: the reply's body (None when it has
   * none), or a rejection, which is how the client sees an error answer of
   * the status endpoint or a network failure.
   */
  datatype QueryOutcome = Reply(body: Option<StatusReply>) | Thrown

  /** The status service during one tick. */
  type StatusQuery = string -> QueryOutcome

  /** The success test of both pollers: a reply with status "succeeded" and a truthy `output[0]`. */
  predicate Succeeded(r: QueryOutcome)
  {
    r.Reply? && r.body.Some? && r.body.value.status == "succeeded"
    && |r.body.value.output| > 0 && r.body.value.output[0] != ""
  }

  /** The image a reply delivers: `output[0]` of a succeeded reply, and nothing otherwise. */
  function ResultUrl(r: QueryOutcome): (url: Option<string>)
    ensures url.Some? <==> Succeeded(r)
    ensures url.Some? ==> Truthy(url) && url.value == r.body.value.output[0]
  {
    if Succeeded(r) then Some(r.body.value.output[0]) else None
  }

  // ---------------------------------------------------------------- overlay poller

  /**
   * The overlay state of the page: the id of the decorate task, the
   * resulting image, and whether an interval is running for the task.
   */
  class OverlayPoller {
    var taskId: Option<string>
    var image: Option<string>
    var polling: bool

    /** An interval only ever runs for a task with a truthy id. */
    predicate Valid()
      reads this
    {
      polling ==> Truthy(taskId)
    }

    constructor ()
      ensures taskId == None && image == None && !polling && Valid()
    {
      taskId, image, polling := None, None, false;
    }

    /**
     * A new overlay task (the effect on `overlayTask`): the old interval is
     * cleared, and a new one starts only when the task has a truthy id.
     * The image shown so far is kept.
     */
    method Watch(id: Option<string>)
      modifies this
      ensures taskId == id && image == old(image) && polling == Truthy(id)
      ensures Valid()
    {
      taskId := id;
      polling := Truthy(id);
    }

    /**
     * One interval tick: query the task; on success record `output[0]` and
     * clear the interval, on anything else (pending, failed, no body, a
     * rejected query) keep waiting. Without a running interval nothing
     * happens.
     */
    method Tick(query: StatusQuery) returns (queried: seq<string>)
      requires Valid()
      modifies this
      ensures Valid() && taskId == old(taskId)
      ensures !old(polling) ==> queried == [] && image == old(image) && !polling
      ensures old(polling) ==> queried == [taskId.value]
      ensures old(polling) && Succeeded(query(taskId.value)) ==> image == ResultUrl(query(taskId.value)) && !polling
      ensures old(polling) && !Succeeded(query(taskId.value)) ==> image == old(image) && polling
    {
      if !polling {
        return [];
      }
      var r := query(taskId.value);
      queried := [taskId.value];
      if r.Reply? && r.body.Some? && r.body.value.status == "succeeded" && |r.body.value.output| > 0 && r.body.value.output[0] != "" {
        image := Some(r.body.value.output[0]);
        polling := false;
      }
    }
  }

  // ---------------------------------------------------------------- room tasks

  /** A room task on the page: the server's entry plus the `done` flag and `url` the tick adds. */
  datatype RoomTask = RoomTask(room: Option<string>, id: string, getUrl: Option<string>, done: bool, url: Option<string>)

  /** One gallery picture: `{room, url}`. */
  datatype GalleryItem = GalleryItem(room: Option<string>, url: Option<string>)

  /** The tasks of a visualize response as the page stores them: not done, no url. */
  function FromEntries(entries: seq<TaskEntry>): (ts: seq<RoomTask>)
    ensures |ts| == |entries|
    ensures forall i :: 0 <= i < |ts| ==>
              !ts[i].done && ts[i].url == None && ts[i].id == entries[i].id && ts[i].room == entries[i].room
  {
    seq(|entries|, i requires 0 <= i < |entries| => RoomTask(entries[i].room, entries[i].id, entries[i].getUrl, false, None))
  }

  /** A task ends the tick in `done`: it already was, or its query succeeds. */
  predicate Finished(t: RoomTask, query: StatusQuery)
  {
    t.done || Succeeded(query(t.id))
  }

  /** The entry `done` receives for a finished task: the task itself, or `{...t, done: true, url: output[0]}`. */
  function Completed(t: RoomTask, query: StatusQuery): (c: RoomTask)
    requires Finished(t, query)
    ensures c.done && (t.done ==> c == t)
    ensures !t.done ==> c.url == ResultUrl(query(t.id)) && Truthy(c.url)
    ensures c.id == t.id && c.room == t.room && c.getUrl == t.getUrl
  {
    if t.done then t else t.(done := true, url := ResultUrl(query(t.id)))
  }

  /** The `done` list of a tick over `ts`, in task order. */
  function DoneOf(ts: seq<RoomTask>, query: StatusQuery): (d: seq<RoomTask>)
    ensures |d| <= |ts|
    ensures forall x :: x in d ==> x.done
  {
    if ts == [] then []
    else
      var t := ts[|ts| - 1];
      DoneOf(ts[..|ts| - 1], query) + (if Finished(t, query) then [Completed(t, query)] else [])
  }

  /** The `pending` list of a tick over `ts`, in task order. */
  function PendingOf(ts: seq<RoomTask>, query: StatusQuery): (p: seq<RoomTask>)
    ensures |p| <= |ts|
    ensures forall x :: x in p ==> x in ts && !x.done
  {
    if ts == [] then []
    else
      var t := ts[|ts| - 1];
      PendingOf(ts[..|ts| - 1], query) + (if Finished(t, query) then [] else [t])
  }

  /** The tasks a tick queries: those not already done, in task order. */
  function Open(ts: seq<RoomTask>): (o: seq<RoomTask>)
    ensures |o| <= |ts|
    ensures forall x :: x in o ==> x in ts && !x.done
  {
    if ts == [] then []
    else
      var t := ts[|ts| - 1];
      Open(ts[..|ts| - 1]) + (if t.done then [] else [t])
  }

  function Ids(ts: seq<RoomTask>): seq<string>
  {
    seq(|ts|, i requires 0 <= i < |ts| => ts[i].id)
  }

  /**
   * The loop of one room tick: a done task is carried over without a
   * query; every other task is queried once and lands in `done` (marked
   * done, with its image) or, unchanged, in `pending`.
   */
  method PollRound(tasks: seq<RoomTask>, query: StatusQuery)
    returns (done: seq<RoomTask>, pending: seq<RoomTask>, queried: seq<string>, stop: Option<nat>)
    ensures stop == FirstThrow(tasks, query)
    ensures stop.None? ==> done == DoneOf(tasks, query) && pending == PendingOf(tasks, query)
    ensures stop.None? ==> queried == Ids(Open(tasks))
    ensures stop.Some? ==> stop.value < |tasks| && queried == Ids(Open(tasks[..stop.value + 1]))
  {
    done, pending, queried, stop := [], [], [], None;
    for i := 0 to |tasks|
      invariant done == DoneOf(tasks[..i], query) && pending == PendingOf(tasks[..i], query)
      invariant queried == Ids(Open(tasks[..i]))
      invariant forall j :: 0 <= j < i ==> !Throws(tasks[j], query)
    {
      var t := tasks[i];
      RoundStep(tasks, i, query);
      if t.done {
        NoThrowExtend(tasks, query, i);
        done := done + [t];
        continue;
      }
      var r := query(t.id);
      queried := queried + [t.id];
      if r.Thrown? {
        FirstThrowAt(tasks, query, i);
        return done, pending, queried, Some(i);
      }
      NoThrowExtend(tasks, query, i);
      if r.body.Some? && r.body.value.status == "succeeded" && |r.body.value.output| > 0 && r.body.value.output[0] != "" {
        done := done + [t.(done := true, url := Some(r.body.value.output[0]))];
      } else {
        pending := pending + [t];
      }
    }
    assert tasks[..|tasks|] == tasks;
    FirstThrowNone(tasks, query);
  }

  /** The task's query rejects: the task is open and awaiting its status throws. */
  predicate Throws(t: RoomTask, query: StatusQuery)
  {
    !t.done && query(t.id).Thrown?
  }

  /** The index of the first open task whose query rejects, where a tick stops; None when there is none. */
  function FirstThrow(ts: seq<RoomTask>, query: StatusQuery): (r: Option<nat>)
    ensures r.Some? ==> r.value < |ts| && Throws(ts[r.value], query)
    ensures r.Some? ==> forall j :: 0 <= j < r.value ==> !Throws(ts[j], query)
    ensures r.None? <==> forall j :: 0 <= j < |ts| ==> !Throws(ts[j], query)
  {
    if ts == [] then None
    else if Throws(ts[0], query) then Some(0)
    else
      match FirstThrow(ts[1..], query)
      case None => None
      case Some(k) => Some(k + 1)
  }

  /** A rejecting open task with none before it is where the tick stops. */
  lemma FirstThrowAt(ts: seq<RoomTask>, query: StatusQuery, i: nat)
    requires i < |ts| && Throws(ts[i], query)
    requires forall j :: 0 <= j < i ==> !Throws(ts[j], query)
    ensures FirstThrow(ts, query) == Some(i)
  {
  }

  lemma NoThrowExtend(ts: seq<RoomTask>, query: StatusQuery, i: nat)
    requires i < |ts| && !Throws(ts[i], query)
    requires forall j :: 0 <= j < i ==> !Throws(ts[j], query)
    ensures forall j :: 0 <= j < i + 1 ==> !Throws(ts[j], query)
  {
  }

  lemma FirstThrowNone(ts: seq<RoomTask>, query: StatusQuery)
    requires forall j :: 0 <= j < |ts| ==> !Throws(ts[j], query)
    ensures FirstThrow(ts, query) == None
  {
  }

  /** How the tick's lists grow by the task at index `i`. */
  lemma RoundStep(tasks: seq<RoomTask>, i: nat, query: StatusQuery)
    requires i < |tasks|
    ensures var t, done, pending := tasks[i], DoneOf(tasks[..i], query), PendingOf(tasks[..i], query);
            t.done ==>
              DoneOf(tasks[..i + 1], query) == done + [t] && PendingOf(tasks[..i + 1], query) == pending
              && Ids(Open(tasks[..i + 1])) == Ids(Open(tasks[..i]))
    ensures var t, done, pending := tasks[i], DoneOf(tasks[..i], query), PendingOf(tasks[..i], query);
            !t.done && Succeeded(query(t.id)) ==>
              DoneOf(tasks[..i + 1], query) == done + [t.(done := true, url := Some(query(t.id).body.value.output[0]))]
              && PendingOf(tasks[..i + 1], query) == pending
    ensures var t, done, pending := tasks[i], DoneOf(tasks[..i], query), PendingOf(tasks[..i], query);
            !t.done && !Succeeded(query(t.id)) ==>
              DoneOf(tasks[..i + 1], query) == done && PendingOf(tasks[..i + 1], query) == pending + [t]
    ensures !tasks[i].done ==> Ids(Open(tasks[..i + 1])) == Ids(Open(tasks[..i])) + [tasks[i].id]
  {
    var prefix := tasks[..i + 1];
    assert prefix[..i] == tasks[..i] && prefix[i] == tasks[i];
    var o := Open(tasks[..i]);
    if !tasks[i].done {
      assert Ids(o + [tasks[i]]) == Ids(o) + [tasks[i].id];
    } else {
      assert o + [] == o;
    }
    var d, p := DoneOf(tasks[..i], query), PendingOf(tasks[..i], query);
    if Finished(tasks[i], query) {
      assert p + [] == p;
    } else {
      assert d + [] == d;
    }
  }

  /** `pending.filter(x => !done.find(d => d.id === x.id))`: the pending tasks whose id no done task has. */
  function Unclaimed(pending: seq<RoomTask>, done: seq<RoomTask>): (r: seq<RoomTask>)
    ensures |r| <= |pending|
    ensures forall x :: x in r ==> x in pending && x.id !in Ids(done)
    ensures forall x :: x in pending && x.id !in Ids(done) ==> x in r
  {
    if pending == [] then []
    else (if pending[0].id in Ids(done) then [] else [pending[0]]) + Unclaimed(pending[1..], done)
  }

  /** The task list a tick stores: every done entry, then the unclaimed pending ones. */
  function NextTasks(done: seq<RoomTask>, pending: seq<RoomTask>): (r: seq<RoomTask>)
    ensures |done| <= |r| <= |done| + |pending| && r[..|done|] == done
    ensures forall x :: x in r[|done|..] <==> x in pending && x.id !in Ids(done)
  {
    done + Unclaimed(pending, done)
  }

  /** `done.map(d => ({room: d.room, url: d.url}))`. */
  function Gallery(done: seq<RoomTask>): (g: seq<GalleryItem>)
    ensures |g| == |done|
    ensures forall i :: 0 <= i < |done| ==> g[i].room == done[i].room && g[i].url == done[i].url
  {
    seq(|done|, i requires 0 <= i < |done| => GalleryItem(done[i].room, done[i].url))
  }

  // ---------------------------------------------------------------- properties of a tick

  /** Every task lands in exactly one of `done` and `pending`. */
  lemma {:induction false} PartitionCount(ts: seq<RoomTask>, query: StatusQuery)
    ensures |DoneOf(ts, query)| + |PendingOf(ts, query)| == |ts|
  {
    if ts != [] {
      PartitionCount(ts[..|ts| - 1], query);
    }
  }

  /**
   * Where each task goes: a done task is carried into `done` unchanged and
   * is not queried; any other task is queried, and goes into `done` as
   * completed when its query succeeds and into `pending` unchanged
   * otherwise. Nothing else enters either list.
   */
  lemma {:induction false} TaskPlacement(ts: seq<RoomTask>, query: StatusQuery)
    ensures forall t :: t in ts && t.done ==> t in DoneOf(ts, query) && t !in Open(ts)
    ensures forall t :: t in ts && !t.done ==> t in Open(ts)
    ensures forall t :: t in ts && !t.done && Succeeded(query(t.id)) ==> Completed(t, query) in DoneOf(ts, query)
    ensures forall t :: t in ts && !Finished(t, query) ==> t in PendingOf(ts, query)
    ensures forall d :: d in DoneOf(ts, query) ==> d.done && exists t :: t in ts && Finished(t, query) && d == Completed(t, query)
    ensures forall p :: p in PendingOf(ts, query) ==> p in ts && !Finished(p, query)
    ensures forall o :: o in Open(ts) ==> o in ts && !o.done
  {
    if ts != [] {
      var init, last := ts[..|ts| - 1], ts[|ts| - 1];
      TaskPlacement(init, query);
      assert ts == init + [last];
      forall t | t in ts
        ensures t in init || t == last
      {
      }
    }
  }

  /** The timer is cleared exactly when every task is finished, that is, when nothing is pending. */
  lemma {:induction false} StopCondition(ts: seq<RoomTask>, query: StatusQuery)
    ensures |DoneOf(ts, query)| == |ts| <==> PendingOf(ts, query) == []
    ensures PendingOf(ts, query) == [] <==> forall i :: 0 <= i < |ts| ==> Finished(ts[i], query)
  {
    PartitionCount(ts, query);
    TaskPlacement(ts, query);
    if PendingOf(ts, query) != [] {
      var p := PendingOf(ts, query)[0];
      assert p in PendingOf(ts, query);
      var i :| 0 <= i < |ts| && ts[i] == p;
      assert !Finished(ts[i], query);
    } else {
      forall i | 0 <= i < |ts|
        ensures Finished(ts[i], query)
      {
        assert ts[i] in ts;
      }
    }
  }

  /** All ids distinct. */
  predicate DistinctIds(ts: seq<RoomTask>)
  {
    forall i, j :: 0 <= i < j < |ts| ==> ts[i].id != ts[j].id
  }

  /** With distinct task ids, no pending entry shares its id with a done entry. */
  lemma SplitIds(ts: seq<RoomTask>, query: StatusQuery)
    requires DistinctIds(ts)
    ensures forall p :: p in PendingOf(ts, query) ==> p.id !in Ids(DoneOf(ts, query))
  {
    TaskPlacement(ts, query);
    var done := DoneOf(ts, query);
    forall p | p in PendingOf(ts, query)
      ensures p.id !in Ids(done)
    {
      var i :| 0 <= i < |ts| && ts[i] == p;
      forall k | 0 <= k < |done|
        ensures done[k].id != p.id
      {
        assert done[k] in done;
        var t :| t in ts && Finished(t, query) && done[k] == Completed(t, query);
        var j :| 0 <= j < |ts| && ts[j] == t;
        assert i != j;
      }
    }
  }

  /**
   * With distinct task ids, the rebuilt list keeps every task: all done
   * entries followed by all pending ones, so its length is that of the
   * list the tick started from.
   */
  lemma UniqueIdsKeepAll(ts: seq<RoomTask>, query: StatusQuery)
    requires DistinctIds(ts)
    ensures Unclaimed(PendingOf(ts, query), DoneOf(ts, query)) == PendingOf(ts, query)
    ensures |NextTasks(DoneOf(ts, query), PendingOf(ts, query))| == |ts|
  {
    SplitIds(ts, query);
    UnclaimedKeepsAll(PendingOf(ts, query), DoneOf(ts, query));
    PartitionCount(ts, query);
  }

  lemma {:induction false} UnclaimedKeepsAll(pending: seq<RoomTask>, done: seq<RoomTask>)
    requires forall p :: p in pending ==> p.id !in Ids(done)
    ensures Unclaimed(pending, done) == pending
  {
    if pending != [] {
      assert pending[0] in pending;
      UnclaimedKeepsAll(pending[1..], done);
    }
  }

  lemma {:induction false} AllDoneSplit(ts: seq<RoomTask>, query: StatusQuery)
    requires forall i :: 0 <= i < |ts| ==> ts[i].done
    ensures DoneOf(ts, query) == ts && PendingOf(ts, query) == [] && Open(ts) == []
  {
    if ts != [] {
      var init, last := ts[..|ts| - 1], ts[|ts| - 1];
      AllDoneSplit(init, query);
      assert last.done && Completed(last, query) == last;
      assert ts == init + [last];
    }
  }

  /** A list whose tasks are all done is left as it is, with no query. */
  lemma AllDoneFixpoint(ts: seq<RoomTask>, query: StatusQuery)
    requires forall i :: 0 <= i < |ts| ==> ts[i].done
    ensures DoneOf(ts, query) == ts && PendingOf(ts, query) == [] && Open(ts) == []
    ensures NextTasks(DoneOf(ts, query), PendingOf(ts, query)) == ts
  {
    AllDoneSplit(ts, query);
    assert Unclaimed([], ts) == [];
    assert ts + [] == ts;
  }

  /** Every done entry carries a truthy image URL when the done tasks it started from did. */
  lemma DoneHaveUrls(ts: seq<RoomTask>, query: StatusQuery)
    requires forall t :: t in ts && t.done ==> Truthy(t.url)
    ensures forall d :: d in DoneOf(ts, query) ==> d.done && Truthy(d.url)
    ensures forall g :: g in Gallery(DoneOf(ts, query)) ==> Truthy(g.url)
  {
    TaskPlacement(ts, query);
    var done := DoneOf(ts, query);
    forall g | g in Gallery(done)
      ensures Truthy(g.url)
    {
      var i :| 0 <= i < |done| && Gallery(done)[i] == g;
      assert done[i] in done;
    }
  }

  /**
   * The rebuilt list keeps every done task's image, and it is not empty
   * while some task is unfinished.
   */
  lemma NextTasksValid(ts: seq<RoomTask>, query: StatusQuery)
    requires forall t :: t in ts && t.done ==> Truthy(t.url)
    ensures var done, pending := DoneOf(ts, query), PendingOf(ts, query);
            (forall t :: t in NextTasks(done, pending) && t.done ==> Truthy(t.url))
            && (|done| != |ts| ==> |NextTasks(done, pending)| > 0)
  {
    var done, pending := DoneOf(ts, query), PendingOf(ts, query);
    DoneHaveUrls(ts, query);
    TaskPlacement(ts, query);
    PartitionCount(ts, query);
    var next := NextTasks(done, pending);
    forall t | t in next && t.done
      ensures Truthy(t.url)
    {
      var i :| 0 <= i < |next| && next[i] == t;
    }
    if done == [] {
      UnclaimedKeepsAll(pending, done);
    }
  }

  // ---------------------------------------------------------------- room poller

  /** The room-task state of the page: the task list, the gallery, and whether an interval runs. */
  class RoomPoller {
    var tasks: seq<RoomTask>
    var gallery: seq<GalleryItem>
    var polling: bool

    /** An interval only runs over a non-empty list, and every done task has its image. */
    predicate Valid()
      reads this
    {
      (polling ==> |tasks| > 0) && forall t :: t in tasks && t.done ==> Truthy(t.url)
    }

    constructor ()
      ensures tasks == [] && gallery == [] && !polling && Valid()
    {
      tasks, gallery, polling := [], [], false;
    }

    /**
     * The effect on `roomTasks`, run after every change of the list: the
     * old interval is cleared and a new one starts when the list is not empty.
     */
    method Rearm()
      requires Valid()
      modifies this
      ensures tasks == old(tasks) && gallery == old(gallery) && polling == (|tasks| > 0)
      ensures Valid()
    {
      polling := |tasks| > 0;
    }

    /** Storing the tasks of a visualize response; the effect then starts polling them. */
    method Load(entries: seq<TaskEntry>)
      modifies this
      ensures tasks == FromEntries(entries) && gallery == old(gallery) && polling == (|entries| > 0)
      ensures Valid()
    {
      tasks := FromEntries(entries);
      polling := |tasks| > 0;
    }

    /**
     * One interval tick: poll the list, store the rebuilt list and the
     * gallery of the done tasks, and clear the interval when every task is
     * done. A query that rejects ends the callback at that task: the list,
     * the gallery and the interval stay as they were, and what the tick
     * collected so far is lost. Without a running interval nothing happens.
     */
    method Tick(query: StatusQuery) returns (queried: seq<string>)
      requires Valid()
      modifies this
      ensures Valid()
      ensures !old(polling) ==> queried == [] && tasks == old(tasks) && gallery == old(gallery) && !polling
      ensures old(polling) && FirstThrow(old(tasks), query).None? ==>
                var done, pending := DoneOf(old(tasks), query), PendingOf(old(tasks), query);
                tasks == NextTasks(done, pending) && gallery == Gallery(done)
                && queried == Ids(Open(old(tasks))) && (polling <==> |done| != |old(tasks)|)
      ensures old(polling) && FirstThrow(old(tasks), query).Some? ==>
                var k := FirstThrow(old(tasks), query).value;
                tasks == old(tasks) && gallery == old(gallery) && polling
                && queried == Ids(Open(old(tasks)[..k + 1]))
    {
      if !polling {
        return [];
      }
      var done, pending, stop;
      var before := tasks;
      done, pending, queried, stop := PollRound(tasks, query);
      if stop.Some? {
        return;
      }
      NextTasksValid(before, query);
      tasks := NextTasks(done, pending);
      gallery := Gallery(done);
      polling := |done| != |before|;
    }
  }
}
