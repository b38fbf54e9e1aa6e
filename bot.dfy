/** The bot process: the global tables `USER_STATES`, `ACTIVE_CLIENTS`,
    `PROGRESS_MESSAGES` and the session store, updated in place by the
    command and message handlers. Each handler's effect is the transition of
    module Session of the same name. */
module Bot {
  import opened Outcomes
  import opened Events
  import opened Links
  import opened Attachments
  import opened Pipeline
  import opened Restore
  import opened Session

  class Bot {
    /** `ADMINS`, the allow-list read from the configuration. */
    const admins: set<UserId>
    var states: map<UserId, LoginState>
    var clients: map<UserId, ClientId>
    var store: map<UserId, string>
    var progress: Table
    /** Everything the bot has sent, in order. */
    ghost var trace: seq<Event>

    ghost function Snap(): World
      reads this
    {
      World(states, clients, store, progress, trace)
    }

    /** Registered implies persisted. */
    ghost predicate Valid()
      reads this
    {
      Session.Valid(Snap())
    }

    /** Process start: empty in-memory tables over the persisted store. */
    constructor (admins: set<UserId>, persisted: map<UserId, string>)
      ensures this.admins == admins
      ensures Snap() == World(map[], map[], persisted, map[], [])
      ensures Valid()
    {
      this.admins := admins;
      states, clients, store, progress := map[], map[], persisted, map[];
      trace := [];
    }

    method Say(user: UserId, n: Notice)
      modifies this`trace
      ensures trace == old(trace) + [Reply(user, n)]
    {
      trace := trace + [Reply(user, n)];
    }

    /** `start` (main.py). */
    method Start(user: UserId)
      requires Valid()
      modifies this
      ensures Valid()
      ensures Snap() == Session.Start(old(Snap()), admins, user)
    {
      if user !in admins {
        return;
      }
      Say(user, Welcome);
    }

    /** `login`. */
    method Login(user: UserId)
      requires Valid()
      modifies this
      ensures Valid()
      ensures Snap() == Session.Login(old(Snap()), admins, user)
    {
      if user !in admins {
        return;
      }
      states := states[user := AwaitingPhone];
      Say(user, AskPhone);
    }

    /** `logout`: no admin check. */
    method Logout(user: UserId, disconnect: Status, delete: Status)
      requires Valid()
      modifies this
      ensures Valid()
      ensures Snap() == Session.Logout(old(Snap()), user, disconnect, delete)
    {
      if user in clients {
        if disconnect.Raised? {
          return;
        }
        clients := clients - {user};
      }
      if delete.Raised? {
        return;
      }
      store := store - {user};
      Say(user, SessionTerminated);
    }

    /** `handle_message`. */
    method HandleMessage(user: UserId, text: string, env: Platform)
      requires Valid()
      modifies this
      ensures Valid()
      ensures Snap() == Session.Handle(old(Snap()), admins, user, text, env)
    {
      if user !in admins {
        return;
      }
      var state := if user in states then Some(states[user]) else None;
      if state == Some(AwaitingPhone) {
        PhoneStep(user, text, env);
      } else if state.Some? && state.value.Pending? {
        OtpStep(user, env);
      } else if StartsWith(text, Prefix) {
        LinkRequest(user, text, env);
      }
    }

    /** The `AWAITING_PHONE` branch. */
    method PhoneStep(user: UserId, phone: string, env: Platform)
      modifies this
      ensures Snap() == Session.PhoneStep(old(Snap()), user, phone, env)
    {
      if env.connect.Raised? {
        return;
      }
      if env.sendCode.Err? {
        return;
      }
      states := states[user := Pending(phone, env.sendCode.value, env.newClient)];
      Say(user, AskCode);
    }

    /** The pending-code branch with its `try`/`except`. */
    method OtpStep(user: UserId, env: Platform)
      requires user in states && states[user].Pending?
      modifies this
      ensures Snap() == Session.OtpStep(old(Snap()), user, env)
    {
      var client := states[user].client;
      var failure: Option<string> := None;
      match env.signIn {
        case Err(e) =>
          failure := Some(e);
        case Ok(session) =>
          if env.upsert.Raised? {
            failure := Some(env.upsert.msg);
          } else {
            store := store[user := session];
            clients := clients[user := client];
            if env.confirm.Raised? {
              failure := Some(env.confirm.msg);
            } else {
              Say(user, LoginOk);
              states := states[user := Cleared];
            }
          }
      }
      if failure.Some? {
        Say(user, LoginError(failure.value));
      }
    }

    /** The link branch. */
    method LinkRequest(user: UserId, text: string, env: Platform)
      modifies this
      ensures Snap() == Session.LinkRequest(old(Snap()), user, text, env)
    {
      var request := Range(text);
      if request.WrongLineCount? {
        Say(user, NeedTwoLinks);
        return;
      }
      if user !in clients {
        Say(user, NotLoggedIn);
        return;
      }
      var client := clients[user];
      trace := trace + [Queried(client, request.chat, request.minId, request.maxId)];
      match env.history {
        case Err(_) =>
        case Ok(msgs) =>
          var messages := CollectMedia(msgs);
          DownloadItems(user, messages, env.runs);
      }
    }

    /** `progress_callback`, for its table bookkeeping. */
    method ProgressCallback(user: UserId, answer: Outcome<MsgId>)
      modifies this`progress, this`trace
      ensures var s := Callback(old(progress), user, answer);
        progress == s.table && trace == old(trace) + s.events
    {
      if user in progress && progress[user].Some? {
        if answer.Ok? {
          trace := trace + [ProgressEdited(user, progress[user].value)];
        }
      } else if answer.Ok? {
        progress := progress[user := Some(answer.value)];
        trace := trace + [ProgressSent(user, answer.value)];
      }
    }

    /** The download loop: the collected messages in reverse order, each
      isolated from the others' failures. */
    method DownloadItems(user: UserId, messages: seq<Message>, runs: nat -> ItemRun)
      requires HasMedia(messages)
      modifies this`progress, this`trace
      ensures var s := RunAll(old(progress), user, Reversed(messages), runs);
        progress == s.table && trace == old(trace) + s.events
    {
      var order := Reversed(messages);
      assert HasMedia(order) && order[..0] == [];
      var i := 0;
      while i < |messages|
        invariant 0 <= i <= |messages|
        invariant var s := RunAll(old(progress), user, order[..i], runs);
          progress == s.table && trace == old(trace) + s.events
      {
        DownloadNext(user, order, i, runs, old(progress), old(trace));
        i := i + 1;
      }
      assert order[..|messages|] == order;
    }

    /** Iteration `i` of the download loop. */
    method DownloadNext(user: UserId, order: seq<Message>, i: nat, runs: nat -> ItemRun,
                        ghost table: Table, ghost base: seq<Event>)
      requires HasMedia(order) && i < |order|
      requires var s := RunAll(table, user, order[..i], runs);
        progress == s.table && trace == base + s.events
      modifies this`progress, this`trace
      ensures var s := RunAll(table, user, order[..i + 1], runs);
        progress == s.table && trace == base + s.events
    {
      ghost var t, es := progress, trace;
      DownloadItem(user, order[i].media.value, runs(i));
      RunAllNext(table, user, order, runs, i, base, t, es, progress, trace);
    }

    /** One item: reset the progress entry, download with callbacks, then
      delete the progress message, reply and send the document; any
      exception gives one failure reply. */
    method DownloadItem(user: UserId, media: Media, run: ItemRun)
      modifies this`progress, this`trace
      ensures var s := Item(old(progress), user, media, run);
        progress == s.table && trace == old(trace) + s.events
    {
      var name := GetFilename(media, run.stamp);
      progress := progress[user := None];
      ghost var mid := trace;
      DownloadWithProgress(user, run.progress);
      ghost var cb := Callbacks(old(progress)[user := None], user, run.progress);
      ghost var before := trace;
      match run.download {
        case Err(e) =>
          Say(user, DownloadFailed(name, e));
        case Ok(path) =>
          FinishItem(user, name, path, run);
      }
      ghost var rest := AfterDownload(cb.table, user, name, run);
      assert trace == before + rest.events;
      assert trace == old(trace) + (cb.events + rest.events);
      ItemSteps(old(progress), user, media, run);
    }

    /** `download_media`, calling the progress callback once per report. */
    method DownloadWithProgress(user: UserId, answers: seq<Outcome<MsgId>>)
      modifies this`progress, this`trace
      ensures var s := Callbacks(old(progress), user, answers);
        progress == s.table && trace == old(trace) + s.events
    {
      var k := 0;
      while k < |answers|
        invariant 0 <= k <= |answers|
        invariant var s := Callbacks(old(progress), user, answers[..k]);
          progress == s.table && trace == old(trace) + s.events
      {
        assert answers[..k + 1][..k] == answers[..k];
        ProgressCallback(user, answers[k]);
        k := k + 1;
      }
      assert answers[..|answers|] == answers;
    }

    /** The rest of the `try` block after `download_media` returned. */
    method FinishItem(user: UserId, name: string, path: string, run: ItemRun)
      modifies this`progress, this`trace
      ensures var s := Finish(old(progress), user, name, path, run);
        progress == s.table && trace == old(trace) + s.events
    {
      if user in progress && progress[user].Some? && progress[user].value != 0 {
        match run.delete {
          case Raised(e) =>
            Say(user, DownloadFailed(name, e));
            return;
          case Done =>
            trace := trace + [ProgressDeleted(user, progress[user].value)];
            progress := progress - {user};
            ghost var mid := trace;
            DeliverItem(user, name, path, run);
            assert trace == old(trace) + ([ProgressDeleted(user, old(progress)[user].value)] + (trace[|mid|..]));
            return;
        }
      }
      DeliverItem(user, name, path, run);
    }

    /** The "Saved" reply and `send_document`. */
    method DeliverItem(user: UserId, name: string, path: string, run: ItemRun)
      modifies this`trace
      ensures var s := Deliver(progress, user, name, path, run);
        progress == s.table && trace == old(trace) + s.events
    {
      if run.saved.Raised? {
        Say(user, DownloadFailed(name, run.saved.msg));
        return;
      }
      Say(user, Saved(name));
      if run.sent.Raised? {
        Say(user, DownloadFailed(name, run.sent.msg));
      } else {
        trace := trace + [DocumentSent(user, path, name)];
      }
    }

    /** `restore_sessions`: each stored record, in the store's own order, is
      reconnected; only authorized ones are registered, and a failure on one
      record does not stop the others. */
    method RestoreSessions(outcome: (UserId, string) -> RestoreOutcome)
      requires Valid()
      modifies this`clients
      ensures Valid()
      ensures Snap() == RestoreAll(old(Snap()), outcome)
    {
      var pending := store.Keys;
      while pending != {}
        invariant pending <= store.Keys
        invariant clients == old(clients) + Restored(store - pending, outcome)
        decreases pending
      {
        var u := Choose(pending);
        RestoreRecord(u, pending, outcome, old(clients));
        pending := pending - {u};
      }
      assert store - {} == store;
      RestoreKeepsValid(old(Snap()), outcome);
    }

    /** The next record of the scan; the store's order is not modelled. */
    static method Choose(s: set<UserId>) returns (u: UserId)
      requires s != {}
      ensures u in s
    {
      SomeRecordLeft(s);
      u :| u in s;
    }

    /** One iteration of the restore loop, inside its `try`. */
    method RestoreRecord(u: UserId, pending: set<UserId>, outcome: (UserId, string) -> RestoreOutcome,
                         ghost base: map<UserId, ClientId>)
      requires u in pending && pending <= store.Keys
      requires clients == base + Restored(store - pending, outcome)
      modifies this`clients
      ensures clients == base + Restored(store - (pending - {u}), outcome)
    {
      RestoredStep(store, store.Keys - pending, u, outcome);
      assert store - (store.Keys - (store.Keys - pending)) == store - pending;
      assert store - (store.Keys - ((store.Keys - pending) + {u})) == store - (pending - {u});
      var result := outcome(u, store[u]);
      if result.Connected? && result.authorized {
        clients := clients[u := result.client];
      }
    }
  }
}
