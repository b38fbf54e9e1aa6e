/** The range-download pipeline: the collect loop, the reversed per-item loop
    with its failure isolation, and the progress-message table. */
module Pipeline {
  import opened Outcomes
  import opened Attachments
  import opened Events

  /** A message of the chat history; `media` is `None` when it has none. */
  datatype Message = Message(id: int, media: Option<Media>)

  /** What the platform and the bot API answered while one item was processed. */
  datatype ItemRun = ItemRun(
    stamp: string,                  // rendered timestamp `get_filename` embeds
    progress: seq<Outcome<MsgId>>,  // answer to each progress callback, in order
    download: Outcome<string>,      // `download_media`: the local path
    delete: Status,                 // deleting the progress message
    saved: Status,                  // the "Saved" reply
    sent: Status)                   // `send_document`

  /** `PROGRESS_MESSAGES`: chat to progress-message id, or `None`. */
  type Table = map<UserId, Option<MsgId>>

  datatype Step = Step(table: Table, events: seq<Event>)

  predicate HasMedia(items: seq<Message>) {
    forall i :: 0 <= i < |items| ==> items[i].media.Some?
  }

  /** The messages that carry media, in enumeration order. */
  function WithMedia(msgs: seq<Message>): (r: seq<Message>)
    ensures |r| <= |msgs|
    ensures HasMedia(r)
    ensures forall m :: m in r <==> m in msgs && m.media.Some?
    decreases |msgs|
  {
    if |msgs| == 0 then []
    else
      var last := msgs[|msgs| - 1];
      assert msgs == msgs[..|msgs| - 1] + [last];
      WithMedia(msgs[..|msgs| - 1]) + (if last.media.Some? then [last] else [])
  }

  /** The collect loop: keep every enumerated message that has media. */
  method CollectMedia(msgs: seq<Message>) returns (r: seq<Message>)
    ensures r == WithMedia(msgs)
  {
    r := [];
    var i := 0;
    while i < |msgs|
      invariant 0 <= i <= |msgs|
      invariant r == WithMedia(msgs[..i])
    {
      assert msgs[..i + 1][..i] == msgs[..i];
      if msgs[i].media.Some? {
        r := r + [msgs[i]];
      }
      i := i + 1;
    }
    assert msgs[..|msgs|] == msgs;
  }

  /** Python's `reversed`. */
  function Reversed<T>(s: seq<T>): (r: seq<T>)
    ensures |r| == |s|
    ensures forall i :: 0 <= i < |s| ==> r[i] == s[|s| - 1 - i]
  {
    seq(|s|, i requires 0 <= i < |s| => s[|s| - 1 - i])
  }

  ghost predicate NewestFirst(ms: seq<Message>) {
    forall i, j :: 0 <= i < j < |ms| ==> ms[i].id > ms[j].id
  }

  ghost predicate OldestFirst(ms: seq<Message>) {
    forall i, j :: 0 <= i < j < |ms| ==> ms[i].id < ms[j].id
  }

  lemma {:induction false} WithMediaKeepsOrder(ms: seq<Message>)
    requires NewestFirst(ms)
    ensures NewestFirst(WithMedia(ms))
    decreases |ms|
  {
    if |ms| > 0 {
      var front := ms[..|ms| - 1];
      var last := ms[|ms| - 1];
      WithMediaKeepsOrder(front);
      var w := WithMedia(front);
      forall m | m in w ensures m.id > last.id {
        var i :| 0 <= i < |front| && front[i] == m;
        assert ms[i] == m;
      }
    }
  }

  /** The platform enumerates newest first; the loop walks the collected list
      backwards, so items are handled oldest first. */
  lemma ProcessingOrder(ms: seq<Message>)
    requires NewestFirst(ms)
    ensures OldestFirst(Reversed(WithMedia(ms)))
    ensures HasMedia(Reversed(WithMedia(ms)))
  {
    WithMediaKeepsOrder(ms);
  }

  /** `progress_callback`'s bookkeeping for the chat `user`: edit the stored
      message (an edit error is swallowed) or send a new one and record it
      (a failed send leaves the table as it was). */
  function Callback(table: Table, user: UserId, answer: Outcome<MsgId>): (r: Step)
    ensures r.table - {user} == table - {user}
    ensures user in table && table[user].Some? ==> r.table == table
    ensures |r.events| <= 1
  {
    if user in table && table[user].Some? then
      Step(table, if answer.Ok? then [ProgressEdited(user, table[user].value)] else [])
    else if answer.Ok? then
      Step(table[user := Some(answer.value)], [ProgressSent(user, answer.value)])
    else
      Step(table, [])
  }

  /** The callbacks made during one download, in order: at most one event
      each, all of them progress messages in the user's own chat, and no
      other chat's entry touched. */
  function Callbacks(table: Table, user: UserId, answers: seq<Outcome<MsgId>>): (r: Step)
    ensures r.table - {user} == table - {user}
    ensures |r.events| <= |answers|
    ensures forall e :: e in r.events ==> IsProgressEvent(e) && e.chat == user
    decreases |answers|
  {
    if |answers| == 0 then Step(table, [])
    else
      var s := Callbacks(table, user, answers[..|answers| - 1]);
      var c := Callback(s.table, user, answers[|answers| - 1]);
      Step(c.table, s.events + c.events)
  }

  /** The id of the first progress message that was sent successfully. */
  function FirstOk(answers: seq<Outcome<MsgId>>): (r: Option<MsgId>)
    ensures r.None? <==> forall i :: 0 <= i < |answers| ==> answers[i].Err?
    ensures r.Some? ==> exists k :: 0 <= k < |answers| && answers[k] == Ok(r.value)
                                   && forall j :: 0 <= j < k ==> answers[j].Err?
    decreases |answers|
  {
    if |answers| == 0 then None
    else
      var front := answers[..|answers| - 1];
      var f := FirstOk(front);
      assert forall i :: 0 <= i < |front| ==> front[i] == answers[i];
      if f.Some? then f
      else if answers[|answers| - 1].Ok? then Some(answers[|answers| - 1].value)
      else None
  }

  predicate IsProgressEvent(e: Event) {
    e.ProgressSent? || e.ProgressEdited?
  }

  predicate IsProgressSend(e: Event) {
    e.ProgressSent?
  }

  predicate IsProgressDeletion(e: Event) {
    e.ProgressDeleted?
  }

  predicate IsFailureNotice(e: Event) {
    e.Reply? && e.notice.DownloadFailed?
  }

  predicate IsDelivery(e: Event) {
    e.DocumentSent?
  }

  /** The number of events satisfying `p`. */
  function Count(es: seq<Event>, p: Event -> bool): (n: nat)
    ensures n <= |es|
    decreases |es|
  {
    if |es| == 0 then 0
    else Count(es[..|es| - 1], p) + (if p(es[|es| - 1]) then 1 else 0)
  }

  lemma {:induction false} CountAppend(a: seq<Event>, b: seq<Event>, p: Event -> bool)
    ensures Count(a + b, p) == Count(a, p) + Count(b, p)
    decreases |b|
  {
    if |b| == 0 {
      assert a + b == a;
    } else {
      assert (a + b)[..|a + b| - 1] == a + b[..|b| - 1];
      CountAppend(a, b[..|b| - 1], p);
    }
  }

  lemma {:induction false} CountNone(es: seq<Event>, p: Event -> bool)
    requires forall e :: e in es ==> !p(e)
    ensures Count(es, p) == 0
    decreases |es|
  {
    if |es| > 0 {
      assert forall e :: e in es[..|es| - 1] ==> e in es;
      CountNone(es[..|es| - 1], p);
    }
  }

  lemma CountOne(e: Event, p: Event -> bool)
    ensures Count([e], p) == if p(e) then 1 else 0
  {
    assert [e][..0] == [];
  }

  lemma CountTwo(e: Event, f: Event, p: Event -> bool)
    ensures Count([e, f], p) == (if p(e) then 1 else 0) + (if p(f) then 1 else 0)
  {
    assert [e, f][..1] == [e];
    CountOne(e, p);
  }

  /** After the entry is reset to `None`, the first successful send creates the
      one progress message of the item, every later callback edits that same
      message, and the table ends up holding its id. */
  lemma CallbacksFromReset(table: Table, user: UserId, answers: seq<Outcome<MsgId>>)
    ensures var s := Callbacks(table[user := None], user, answers);
      && s.table == table[user := FirstOk(answers)]
      && Count(s.events, IsProgressSend) == (if FirstOk(answers).Some? then 1 else 0)
      && forall e :: e in s.events ==>
           IsProgressEvent(e) && e.chat == user && Some(e.msg) == FirstOk(answers)
  {
    CallbacksTable(table, user, answers);
    CallbacksEvents(table, user, answers);
  }

  lemma {:induction false} CallbacksTable(table: Table, user: UserId, answers: seq<Outcome<MsgId>>)
    ensures Callbacks(table[user := None], user, answers).table == table[user := FirstOk(answers)]
    decreases |answers|
  {
    if |answers| > 0 {
      CallbacksTable(table, user, answers[..|answers| - 1]);
    }
  }

  lemma CallbacksEvents(table: Table, user: UserId, answers: seq<Outcome<MsgId>>)
    ensures var s := Callbacks(table[user := None], user, answers);
      && Count(s.events, IsProgressSend) == (if FirstOk(answers).Some? then 1 else 0)
      && forall e :: e in s.events ==>
           IsProgressEvent(e) && e.chat == user && Some(e.msg) == FirstOk(answers)
  {
    CallbacksSends(table, user, answers);
    CallbacksShape(table, user, answers);
  }

  /** The events of the last callback, given what the earlier ones found. */
  lemma LastCallback(table: Table, user: UserId, answers: seq<Outcome<MsgId>>)
    requires |answers| > 0
    ensures var front, last := answers[..|answers| - 1], answers[|answers| - 1];
      var s := Callbacks(table[user := None], user, front);
      && Callbacks(table[user := None], user, answers).events == s.events + Callback(s.table, user, last).events
      && Callback(s.table, user, last).events ==
           (if last.Err? then []
            else if FirstOk(front).Some? then [ProgressEdited(user, FirstOk(front).value)]
            else [ProgressSent(user, last.value)])
      && FirstOk(answers) == (if FirstOk(front).Some? then FirstOk(front)
                              else if last.Ok? then Some(last.value) else None)
  {
    CallbacksTable(table, user, answers[..|answers| - 1]);
  }

  lemma {:induction false} CallbacksSends(table: Table, user: UserId, answers: seq<Outcome<MsgId>>)
    ensures Count(Callbacks(table[user := None], user, answers).events, IsProgressSend) ==
      (if FirstOk(answers).Some? then 1 else 0)
    decreases |answers|
  {
    if |answers| > 0 {
      var front, last := answers[..|answers| - 1], answers[|answers| - 1];
      CallbacksSends(table, user, front);
      LastCallback(table, user, answers);
      var s := Callbacks(table[user := None], user, front);
      var c := Callback(s.table, user, last);
      CountAppend(s.events, c.events, IsProgressSend);
      if last.Err? {
        CountNone(c.events, IsProgressSend);
      } else if FirstOk(front).Some? {
        CountOne(ProgressEdited(user, FirstOk(front).value), IsProgressSend);
      } else {
        CountOne(ProgressSent(user, last.value), IsProgressSend);
      }
    }
  }

  lemma {:induction false} CallbacksShape(table: Table, user: UserId, answers: seq<Outcome<MsgId>>)
    ensures forall e :: e in Callbacks(table[user := None], user, answers).events ==>
      IsProgressEvent(e) && e.chat == user && Some(e.msg) == FirstOk(answers)
    decreases |answers|
  {
    if |answers| > 0 {
      var front, last := answers[..|answers| - 1], answers[|answers| - 1];
      CallbacksShape(table, user, front);
      LastCallback(table, user, answers);
      if FirstOk(front).None? {
        CallbacksQuiet(table, user, front);
      }
    }
  }

  /** While no send has succeeded there is nothing to edit: the callbacks
      send nothing at all. */
  lemma {:induction false} CallbacksQuiet(table: Table, user: UserId, answers: seq<Outcome<MsgId>>)
    requires FirstOk(answers).None?
    ensures Callbacks(table[user := None], user, answers).events == []
    decreases |answers|
  {
    if |answers| > 0 {
      var front := answers[..|answers| - 1];
      CallbacksQuiet(table, user, front);
      CallbacksTable(table, user, front);
    }
  }

  /** The local download succeeded and a progress message with a truthy id
      (non-zero) is on the table, so it gets deleted. */
  predicate DeletesProgress(run: ItemRun) {
    FirstOk(run.progress).Some? && FirstOk(run.progress).value != 0
  }

  /** An item fails when the download, the deletion of the progress message
      (when attempted), the "Saved" reply or the document send raises. */
  predicate ItemFails(run: ItemRun) {
    || run.download.Err?
    || (DeletesProgress(run) && run.delete.Raised?)
    || run.saved.Raised?
    || run.sent.Raised?
  }

  /** The text of the exception that ended a failing item. */
  function FailureDetail(run: ItemRun): string {
    if run.download.Err? then run.download.msg
    else if DeletesProgress(run) && run.delete.Raised? then run.delete.msg
    else if run.saved.Raised? then run.saved.msg
    else if run.sent.Raised? then run.sent.msg
    else ""
  }

  /** The failure and delivery counts of a piece of an item's events. */
  ghost predicate Reports(es: seq<Event>, fails: bool) {
    && Count(es, IsFailureNotice) == (if fails then 1 else 0)
    && Count(es, IsDelivery) == (if fails then 0 else 1)
  }

  /** `PROGRESS_MESSAGES.get(user)` is truthy: an id other than 0. */
  predicate Truthy(table: Table, user: UserId) {
    user in table && table[user].Some? && table[user].value != 0
  }

  /** One iteration of the download loop for `media`, answered by `run`:
      reset the entry, download with progress callbacks, then finish. The
      item touches no other chat's entry and reports exactly once: one
      failure notice and no document when it fails, one document and no
      failure notice otherwise. */
  function Item(table: Table, user: UserId, media: Media, run: ItemRun): (r: Step)
    ensures r.table - {user} == table - {user}
    ensures Reports(r.events, ItemFails(run))
  {
    var name := GetFilename(media, run.stamp);
    var cb := Callbacks(table[user := None], user, run.progress);
    CallbacksFromReset(table, user, run.progress);
    assert Truthy(cb.table, user) <==> DeletesProgress(run);
    assert cb.table - {user} == table - {user};
    var rest := AfterDownload(cb.table, user, name, run);
    ReportsAfterProgress(cb.events, rest.events, ItemFails(run));
    Step(rest.table, cb.events + rest.events)
  }

  /** `Item` as its two phases: the callbacks on the reset entry, then the
      steps after the download on the table they leave. */
  lemma ItemSteps(table: Table, user: UserId, media: Media, run: ItemRun)
    ensures var cb := Callbacks(table[user := None], user, run.progress);
      var rest := AfterDownload(cb.table, user, GetFilename(media, run.stamp), run);
      Item(table, user, media, run) == Step(rest.table, cb.events + rest.events)
  {
  }

  /** Progress events are neither failure notices nor deliveries. */
  lemma ReportsAfterProgress(progress: seq<Event>, rest: seq<Event>, fails: bool)
    requires forall e :: e in progress ==> IsProgressEvent(e)
    requires Reports(rest, fails)
    ensures Reports(progress + rest, fails)
  {
    CountNone(progress, IsFailureNotice);
    CountNone(progress, IsDelivery);
    CountAppend(progress, rest, IsFailureNotice);
    CountAppend(progress, rest, IsDelivery);
  }

  /** What follows `download_media`: the failure notice when it raised,
      otherwise the finishing steps. Only the caller's entry can change. */
  function AfterDownload(table: Table, user: UserId, name: string, run: ItemRun): (r: Step)
    ensures r.table - {user} == table - {user}
    ensures Reports(r.events, || run.download.Err?
                              || (Truthy(table, user) && run.delete.Raised?)
                              || run.saved.Raised? || run.sent.Raised?)
  {
    assert table - {user} - {user} == table - {user};
    match run.download
    case Err(e) => Fail(table, user, name, e)
    case Ok(path) => Finish(table, user, name, path, run)
  }

  /** The `except` branch: exactly one failure notice, nothing delivered, and
      the table left as it is. */
  function Fail(table: Table, user: UserId, name: string, detail: string): (r: Step)
    ensures r.table == table
    ensures Reports(r.events, true)
  {
    CountOne(Reply(user, DownloadFailed(name, detail)), IsFailureNotice);
    CountOne(Reply(user, DownloadFailed(name, detail)), IsDelivery);
    Step(table, [Reply(user, DownloadFailed(name, detail))])
  }

  /** After a successful download: delete the progress message when its id
      is truthy, then deliver. The entry is dropped exactly when the deletion
      went through; a raising step reports one failure, otherwise the item
      is delivered once. */
  function Finish(table: Table, user: UserId, name: string, path: string, run: ItemRun): (r: Step)
    ensures r.table == if Truthy(table, user) && run.delete.Done? then table - {user} else table
    ensures Reports(r.events, (Truthy(table, user) && run.delete.Raised?) || run.saved.Raised? || run.sent.Raised?)
  {
    if Truthy(table, user) then
      match run.delete
      case Raised(e) => Fail(table, user, name, e)
      case Done =>
        var del := ProgressDeleted(user, table[user].value);
        var d := Deliver(table - {user}, user, name, path, run);
        CountAppend([del], d.events, IsFailureNotice);
        CountAppend([del], d.events, IsDelivery);
        CountOne(del, IsFailureNotice);
        CountOne(del, IsDelivery);
        Step(d.table, [del] + d.events)
    else
      Deliver(table, user, name, path, run)
  }

  /** The "Saved" reply and the document send that end a successful item:
      the table is untouched, and either call raising gives one failure
      notice instead of the document. */
  function Deliver(table: Table, user: UserId, name: string, path: string, run: ItemRun): (r: Step)
    ensures r.table == table
    ensures Reports(r.events, run.saved.Raised? || run.sent.Raised?)
  {
    var saved := Reply(user, Saved(name));
    match run.saved
    case Raised(e) => Fail(table, user, name, e)
    case Done =>
      match run.sent
      case Raised(e) =>
        CountTwo(saved, Reply(user, DownloadFailed(name, e)), IsFailureNotice);
        CountTwo(saved, Reply(user, DownloadFailed(name, e)), IsDelivery);
        Step(table, [saved, Reply(user, DownloadFailed(name, e))])
      case Done =>
        CountTwo(saved, DocumentSent(user, path, name), IsFailureNotice);
        CountTwo(saved, DocumentSent(user, path, name), IsDelivery);
        Step(table, [saved, DocumentSent(user, path, name)])
  }

  /** What the operator sees last for an item: the failure notice with the
      item's name and the exception text, or the "Saved" reply followed by
      the document. */
  lemma ItemEnding(table: Table, user: UserId, media: Media, run: ItemRun)
    ensures var s := Item(table, user, media, run);
      var name := GetFilename(media, run.stamp);
      && (ItemFails(run) ==>
            |s.events| >= 1 && s.events[|s.events| - 1] == Reply(user, DownloadFailed(name, FailureDetail(run))))
      && (!ItemFails(run) ==>
            && |s.events| >= 2
            && s.events[|s.events| - 2] == Reply(user, Saved(name))
            && s.events[|s.events| - 1] == DocumentSent(user, run.download.value, name))
  {
    var cb := Callbacks(table[user := None], user, run.progress);
    var name := GetFilename(media, run.stamp);
    CallbacksTable(table, user, run.progress);
    assert DeletesProgress(run) <==> Truthy(cb.table, user);
    var rest := AfterDownload(cb.table, user, name, run);
    assert Item(table, user, media, run).events == cb.events + rest.events;
    AfterDownloadEnding(cb.table, user, name, run);
  }

  /** The same ending for the events after the download, when the table
      holds a truthy id exactly when the run deletes its progress message. */
  lemma AfterDownloadEnding(table: Table, user: UserId, name: string, run: ItemRun)
    requires Truthy(table, user) <==> DeletesProgress(run)
    ensures var es := AfterDownload(table, user, name, run).events;
      && (ItemFails(run) ==>
            |es| >= 1 && es[|es| - 1] == Reply(user, DownloadFailed(name, FailureDetail(run))))
      && (!ItemFails(run) ==>
            && |es| >= 2
            && es[|es| - 2] == Reply(user, Saved(name))
            && es[|es| - 1] == DocumentSent(user, run.download.value, name))
  {
    match run.download
    case Err(e) =>
    case Ok(path) =>
      assert |Finish(table, user, name, path, run).events| >= 1;
  }

  lemma ItemTable(table: Table, user: UserId, media: Media, run: ItemRun)
    ensures Item(table, user, media, run).table ==
      if run.download.Ok? && DeletesProgress(run) && run.delete.Done? then table - {user}
      else table[user := FirstOk(run.progress)]
  {
    CallbacksTable(table, user, run.progress);
    var t := table[user := FirstOk(run.progress)];
    assert Truthy(t, user) <==> DeletesProgress(run);
    if run.download.Ok? && DeletesProgress(run) && run.delete.Done? {
      assert t - {user} == table - {user};
    }
  }

  /** A failed download leaves its progress message on the table and in the
      chat: nothing deletes it, and the next item overwrites the entry. */
  lemma FailedItemKeepsProgress(table: Table, user: UserId, media: Media, run: ItemRun, id: MsgId)
    requires run.download.Err? && FirstOk(run.progress) == Some(id)
    ensures var s := Item(table, user, media, run);
      && user in s.table && s.table[user] == Some(id)
      && Count(s.events, IsProgressDeletion) == 0
  {
    ItemTable(table, user, media, run);
    var cb := Callbacks(table[user := None], user, run.progress);
    CallbacksFromReset(table, user, run.progress);
    CountNone(Item(table, user, media, run).events, IsProgressDeletion);
  }

  /** The download loop over `items` (already in processing order); item `i`
      is answered by `runs(i)`. */
  function RunAll(table: Table, user: UserId, items: seq<Message>, runs: nat -> ItemRun): (r: Step)
    requires HasMedia(items)
    ensures r.table - {user} == table - {user}
    decreases |items|
  {
    if |items| == 0 then Step(table, [])
    else
      var n := |items| - 1;
      var s := RunAll(table, user, items[..n], runs);
      var it := Item(s.table, user, items[n].media.value, runs(n));
      Step(it.table, s.events + it.events)
  }

  /** The loop after `i + 1` items is the loop after `i` items followed by
      item `i`: a state `(t, es)` reached by the first and then extended by
      the item is the state of the second. */
  lemma RunAllNext(table: Table, user: UserId, items: seq<Message>, runs: nat -> ItemRun, i: nat,
                   base: seq<Event>, t: Table, es: seq<Event>, t2: Table, es2: seq<Event>)
    requires HasMedia(items) && i < |items|
    requires t == RunAll(table, user, items[..i], runs).table
    requires es == base + RunAll(table, user, items[..i], runs).events
    requires t2 == Item(t, user, items[i].media.value, runs(i)).table
    requires es2 == es + Item(t, user, items[i].media.value, runs(i)).events
    ensures t2 == RunAll(table, user, items[..i + 1], runs).table
    ensures es2 == base + RunAll(table, user, items[..i + 1], runs).events
  {
    RunAllLast(table, user, items, runs, i);
    var s := RunAll(table, user, items[..i], runs);
    Associative(base, s.events, Item(t, user, items[i].media.value, runs(i)).events);
  }

  /** One more item of `items`, unfolding `RunAll` once. */
  lemma RunAllLast(table: Table, user: UserId, items: seq<Message>, runs: nat -> ItemRun, i: nat)
    requires HasMedia(items) && i < |items|
    ensures var s := RunAll(table, user, items[..i], runs);
      var it := Item(s.table, user, items[i].media.value, runs(i));
      RunAll(table, user, items[..i + 1], runs) == Step(it.table, s.events + it.events)
  {
    var p := items[..i + 1];
    assert p[..i] == items[..i] && p[i] == items[i] && |p| - 1 == i;
  }

  /** Regrouping of a concatenation, stated for the three traces at hand so
      that `RunAllNext` needs no search for the grouping. */
  lemma Associative<T>(a: seq<T>, b: seq<T>, c: seq<T>)
    ensures (a + b) + c == a + (b + c)
  {
  }

  /** How many of the first `n` runs fail. */
  function FailingRuns(runs: nat -> ItemRun, n: nat): (k: nat)
    ensures k <= n
  {
    if n == 0 then 0 else FailingRuns(runs, n - 1) + (if ItemFails(runs(n - 1)) then 1 else 0)
  }

  /** Failure isolation: the loop reports exactly one failure per failing item
      and delivers every other item, whatever happened to the items before. */
  lemma {:induction false} RunAllReport(table: Table, user: UserId, items: seq<Message>, runs: nat -> ItemRun)
    requires HasMedia(items)
    ensures var s := RunAll(table, user, items, runs);
      && Count(s.events, IsFailureNotice) == FailingRuns(runs, |items|)
      && Count(s.events, IsDelivery) == |items| - FailingRuns(runs, |items|)
    decreases |items|
  {
    if |items| > 0 {
      var n := |items| - 1;
      RunAllReport(table, user, items[..n], runs);
      var s := RunAll(table, user, items[..n], runs);
      var it := Item(s.table, user, items[n].media.value, runs(n));
      assert RunAll(table, user, items, runs).events == s.events + it.events;
      var f := if ItemFails(runs(n)) then 1 else 0;
      assert Count(it.events, IsFailureNotice) == f && Count(it.events, IsDelivery) == 1 - f;
      assert FailingRuns(runs, |items|) == FailingRuns(runs, n) + f;
      CountAppend(s.events, it.events, IsFailureNotice);
      CountAppend(s.events, it.events, IsDelivery);
    }
  }
}
