/** The per-user session lifecycle: the admin gate, the `/login` phone and
    code exchange, `/logout`, and the routing of free text, as transitions of
    the bot's tables. The class in module Bot performs them in place. */
module Session {
  import opened Outcomes
  import opened Events
  import opened Links
  import opened Pipeline
  import opened Restore

  /** The opaque handle `send_code_request` returns. */
  datatype SentCode = SentCode(phoneCodeHash: string)

  /** A value of `USER_STATES`: `None`, `"AWAITING_PHONE"`, or the pending
      record `{phone, sent_code, client}`. A user who is absent has no entry. */
  datatype LoginState = Cleared | AwaitingPhone | Pending(phone: string, sentCode: SentCode, client: ClientId)

  /** The bot's tables and what it has sent so far. */
  datatype World = World(
    states: map<UserId, LoginState>,   // USER_STATES
    clients: map<UserId, ClientId>,    // ACTIVE_CLIENTS
    store: map<UserId, string>,        // the `sessions` collection
    progress: Table,                   // PROGRESS_MESSAGES
    trace: seq<Event>)

  /** The answers of the platform, the store and the bot API to one message. */
  datatype Platform = Platform(
    newClient: ClientId,               // the `TelegramClient` created for the phone step
    connect: Status,                   // its `connect()`
    sendCode: Outcome<SentCode>,       // `send_code_request(phone)`
    signIn: Outcome<string>,           // `sign_in(phone, code)`, then the saved session string
    upsert: Status,                    // the store's `update_one(..., upsert=True)`
    confirm: Status,                   // the "Login successful" reply
    history: Outcome<seq<Message>>,    // `iter_messages`, newest first
    runs: nat -> ItemRun)              // the answers for the i-th downloaded item

  /** A live connection is only ever registered for a persisted session. */
  predicate Valid(w: World) {
    w.clients.Keys <= w.store.Keys
  }

  function Say(w: World, user: UserId, n: Notice): World {
    w.(trace := w.trace + [Reply(user, n)])
  }

  /** `/start`: an admin gets the welcome; nothing else changes. */
  function Start(w: World, admins: set<UserId>, user: UserId): (r: World)
    ensures r.(trace := w.trace) == w
    ensures w.trace <= r.trace && |r.trace| <= |w.trace| + 1
    ensures user in admins ==> r.trace == w.trace + [Reply(user, Welcome)]
  {
    if user !in admins then w else Say(w, user, Welcome)
  }

  /** `/login`: whatever the state was, wait for a phone number. */
  function Login(w: World, admins: set<UserId>, user: UserId): (r: World)
    ensures r.clients == w.clients && r.store == w.store && r.progress == w.progress
    ensures r.states - {user} == w.states - {user}
    ensures w.trace <= r.trace && |r.trace| <= |w.trace| + 1
  {
    if user !in admins then w
    else Say(w.(states := w.states[user := AwaitingPhone]), user, AskPhone)
  }

  /** `/logout`, open to every user: disconnect and forget the live client if
      there is one, delete the stored session, confirm. An exception from the
      disconnect or the delete ends the handler where it is raised. */
  function Logout(w: World, user: UserId, disconnect: Status, delete: Status): (r: World)
    ensures r.states == w.states && r.progress == w.progress
    ensures r.clients.Keys <= w.clients.Keys && r.store.Keys <= w.store.Keys
    ensures r.clients - {user} == w.clients - {user} && r.store - {user} == w.store - {user}
    ensures w.trace <= r.trace && |r.trace| <= |w.trace| + 1
  {
    if user in w.clients && disconnect.Raised? then w
    else
      var w1 := w.(clients := w.clients - {user});
      if delete.Raised? then w1
      else Say(w1.(store := w.store - {user}), user, SessionTerminated)
  }

  /** The phone step: the state becomes the pending record only when both
      `connect` and `send_code_request` return; otherwise the exception ends
      the handler and the state stays `AWAITING_PHONE`. */
  function PhoneStep(w: World, user: UserId, phone: string, env: Platform): (r: World)
    ensures r.clients == w.clients && r.store == w.store && r.progress == w.progress
    ensures r.states - {user} == w.states - {user}
    ensures w.trace <= r.trace && |r.trace| <= |w.trace| + 1
  {
    if env.connect.Raised? || env.sendCode.Err? then w
    else Say(w.(states := w.states[user := Pending(phone, env.sendCode.value, env.newClient)]), user, AskCode)
  }

  /** The code step: persist the session string, register the client, confirm,
      clear the state. Any exception on the way is answered with one error
      reply and leaves the state as it is. */
  function OtpStep(w: World, user: UserId, env: Platform): (r: World)
    requires user in w.states && w.states[user].Pending?
    ensures r.progress == w.progress
    ensures r.states - {user} == w.states - {user}
    ensures r.clients - {user} == w.clients - {user} && r.store - {user} == w.store - {user}
    ensures w.trace <= r.trace && |r.trace| == |w.trace| + 1
  {
    var client := w.states[user].client;
    match env.signIn
    case Err(e) => Say(w, user, LoginError(e))
    case Ok(session) =>
      if env.upsert.Raised? then Say(w, user, LoginError(env.upsert.msg))
      else
        var w1 := w.(store := w.store[user := session], clients := w.clients[user := client]);
        if env.confirm.Raised? then Say(w1, user, LoginError(env.confirm.msg))
        else Say(w1, user, LoginOk).(states := w.states[user := Cleared])
  }

  /** The link branch: two lines, a live client, the history query, then the
      download loop over the media messages, oldest first. An exception from
      the query ends the handler. */
  function LinkRequest(w: World, user: UserId, text: string, env: Platform): (r: World)
    ensures r.states == w.states && r.clients == w.clients && r.store == w.store
    ensures r.progress - {user} == w.progress - {user}
    ensures w.trace <= r.trace && |r.trace| > |w.trace|
  {
    match Range(text)
    case WrongLineCount => Say(w, user, NeedTwoLinks)
    case LinkPair(chat, minId, maxId) =>
      if user !in w.clients then Say(w, user, NotLoggedIn)
      else
        var w1 := w.(trace := w.trace + [Queried(w.clients[user], chat, minId, maxId)]);
        match env.history
        case Err(_) => w1
        case Ok(msgs) =>
          var s := RunAll(w1.progress, user, Reversed(WithMedia(msgs)), env.runs);
          w1.(progress := s.table, trace := w1.trace + s.events)
  }

  /** `handle_message`: the admin gate, then the login steps, then links. */
  function Handle(w: World, admins: set<UserId>, user: UserId, text: string, env: Platform): (r: World)
    ensures r.states - {user} == w.states - {user}
    ensures r.clients - {user} == w.clients - {user} && r.store - {user} == w.store - {user}
    ensures r.progress - {user} == w.progress - {user}
    ensures w.trace <= r.trace
  {
    if user !in admins then w
    else if user in w.states && w.states[user] == AwaitingPhone then PhoneStep(w, user, text, env)
    else if user in w.states && w.states[user].Pending? then OtpStep(w, user, env)
    else if StartsWith(text, Prefix) then LinkRequest(w, user, text, env)
    else w
  }

  /** `restore_sessions`. */
  function RestoreAll(w: World, outcome: (UserId, string) -> RestoreOutcome): (r: World)
    ensures r.(clients := w.clients) == w
    ensures w.clients.Keys <= r.clients.Keys
    ensures forall u :: u in r.clients && u !in w.clients ==> u in w.store
  {
    w.(clients := w.clients + Restored(w.store, outcome))
  }

  /** The admin gate: for a user outside the allow-list, `/start`, `/login`
      and every free-text message change nothing and send nothing. */
  lemma NonAdminIgnored(w: World, admins: set<UserId>, user: UserId, text: string, env: Platform)
    requires user !in admins
    ensures Start(w, admins, user) == w
    ensures Login(w, admins, user) == w
    ensures Handle(w, admins, user, text, env) == w
  {
  }

  /** `/login` from an admin always lands in `AWAITING_PHONE` and asks for
      the phone number; nothing else changes. */
  lemma LoginAwaitsPhone(w: World, admins: set<UserId>, user: UserId)
    requires user in admins
    ensures var w' := Login(w, admins, user);
      && w'.states == w.states[user := AwaitingPhone]
      && w'.clients == w.clients && w'.store == w.store && w'.progress == w.progress
      && w'.trace == w.trace + [Reply(user, AskPhone)]
  {
  }

  /** `/logout` never touches the login state; without a live session it is
      the delete-by-key and the standard reply, and doing it twice ends in
      the same tables as doing it once. */
  lemma LogoutWithoutSession(w: World, user: UserId, d1: Status, d2: Status)
    requires user !in w.clients
    ensures Logout(w, user, d1, Done) == Say(w.(store := w.store - {user}), user, SessionTerminated)
    ensures var once := Logout(w, user, d1, Done);
      var twice := Logout(once, user, d2, Done);
      && twice.states == once.states == w.states
      && twice.clients == once.clients == w.clients
      && twice.store == once.store
      && twice.trace == once.trace + [Reply(user, SessionTerminated)]
  {
    assert w.clients - {user} == w.clients;
    var once := Logout(w, user, d1, Done);
    assert once.store - {user} == once.store;
  }

  /** `/logout` never touches the login state or the progress table. Once the
      disconnect (when there is a live client) and the delete return, the user
      has no client and no stored session and gets the confirmation; an
      exception from either sends nothing. */
  lemma LogoutKeepsLoginState(w: World, user: UserId, disconnect: Status, delete: Status)
    ensures Logout(w, user, disconnect, delete).states == w.states
    ensures Logout(w, user, disconnect, delete).progress == w.progress
    ensures user !in w.clients || disconnect.Done? ==> user !in Logout(w, user, disconnect, delete).clients
    ensures delete.Done? && (user !in w.clients || disconnect.Done?) ==>
      && user !in Logout(w, user, disconnect, delete).store
      && Logout(w, user, disconnect, delete).trace == w.trace + [Reply(user, SessionTerminated)]
    ensures !(delete.Done? && (user !in w.clients || disconnect.Done?)) ==>
      Logout(w, user, disconnect, delete).trace == w.trace
  {
  }

  /** The phone step reaches the pending record exactly when the connection
      and the code request both succeed. */
  lemma PhoneStepOutcome(w: World, admins: set<UserId>, user: UserId, phone: string, env: Platform)
    requires user in admins && user in w.states && w.states[user] == AwaitingPhone
    ensures var w' := Handle(w, admins, user, phone, env);
      && w'.clients == w.clients && w'.store == w.store && w'.progress == w.progress
      && (env.connect.Done? && env.sendCode.Ok? ==>
            w'.states == w.states[user := Pending(phone, env.sendCode.value, env.newClient)]
            && w'.trace == w.trace + [Reply(user, AskCode)])
      && (env.connect.Raised? || env.sendCode.Err? ==> w' == w)
  {
  }

  /** A successful code step persists the session before it registers the
      client, so the client is registered only for a stored session, and the
      state is cleared once the confirmation is delivered. */
  lemma OtpSuccess(w: World, admins: set<UserId>, user: UserId, text: string, env: Platform, session: string)
    requires user in admins && user in w.states && w.states[user].Pending?
    requires env.signIn == Ok(session) && env.upsert.Done?
    ensures var w' := Handle(w, admins, user, text, env);
      && w'.store == w.store[user := session]
      && w'.clients == w.clients[user := w.states[user].client]
      && (env.confirm.Done? ==> w'.states == w.states[user := Cleared]
                                && w'.trace == w.trace + [Reply(user, LoginOk)])
      && (env.confirm.Raised? ==> w'.states == w.states)
  {
  }

  /** A sign-in or store failure produces one error reply and leaves the
      state, the live clients and the store as they were, so the next
      message is again taken as the code. */
  lemma OtpFailureRetries(w: World, admins: set<UserId>, user: UserId, text: string, env: Platform)
    requires user in admins && user in w.states && w.states[user].Pending?
    requires env.signIn.Err? || env.upsert.Raised?
    ensures var w' := Handle(w, admins, user, text, env);
      && w'.states == w.states && w'.clients == w.clients && w'.store == w.store
      && w'.progress == w.progress
      && w'.trace == w.trace + [Reply(user, LoginError(if env.signIn.Err? then env.signIn.msg else env.upsert.msg))]
  {
  }

  /** While a login is under way, a message goes to the login flow and never
      starts a download, even if it is a link. */
  /** With no login under way, an admin's text that does not start with the
      link prefix falls through every branch: nothing changes and nothing is
      sent. */
  lemma NonLinkIgnored(w: World, admins: set<UserId>, user: UserId, text: string, env: Platform)
    requires user in admins && (user !in w.states || w.states[user] == Cleared)
    requires !StartsWith(text, Prefix)
    ensures Handle(w, admins, user, text, env) == w
  {
  }

  lemma LoginTakesPrecedence(w: World, admins: set<UserId>, user: UserId, text: string, env: Platform)
    requires user in w.states && (w.states[user].AwaitingPhone? || w.states[user].Pending?)
    ensures Handle(w, admins, user, text, env).progress == w.progress
    ensures forall e :: e in Handle(w, admins, user, text, env).trace[|w.trace|..] ==> e.Reply?
  {
    var w' := Handle(w, admins, user, text, env);
    assert |w.trace| <= |w'.trace| && w'.trace[..|w.trace|] == w.trace;
  }

  /** The input guards: a request that is not two lines, or from a user with
      no live client, gets exactly one error reply and nothing else. */
  lemma LinkGuards(w: World, admins: set<UserId>, user: UserId, text: string, env: Platform)
    requires user in admins && (user !in w.states || w.states[user] == Cleared)
    requires StartsWith(text, Prefix)
    ensures NewlineCount(Strip(text)) != 1 ==>
      Handle(w, admins, user, text, env) == Say(w, user, NeedTwoLinks)
    ensures NewlineCount(Strip(text)) == 1 && user !in w.clients ==>
      Handle(w, admins, user, text, env) == Say(w, user, NotLoggedIn)
  {
  }

  /** For two links on two lines, the history query asks the user's client
      for the first link's chat, from the first link's message id to the
      second's; the second link's chat id plays no part. */
  lemma LinkQuery(w: World, admins: set<UserId>, user: UserId, env: Platform,
                  chat: nat, start: nat, otherChat: nat, end: nat)
    requires user in admins && (user !in w.states || w.states[user] == Cleared)
    requires user in w.clients
    ensures var w' := Handle(w, admins, user, Link(chat, start) + "\n" + Link(otherChat, end), env);
      && |w'.trace| > |w.trace|
      && w'.trace[|w.trace|] == Queried(w.clients[user], Some(chat), Some(start), Some(end))
  {
    var text := Link(chat, start) + "\n" + Link(otherChat, end);
    RangeOfTwoLinks(chat, start, otherChat, end);
    assert text[..|Prefix|] == Prefix;
  }

  /** The accepted request reports one failure per failing item and sends
      every other item's document, and leaves other chats' progress entries
      alone. */
  lemma LinkReport(w: World, admins: set<UserId>, user: UserId, text: string, env: Platform, msgs: seq<Message>)
    requires user in admins && (user !in w.states || w.states[user] == Cleared)
    requires StartsWith(text, Prefix) && Range(text).LinkPair? && user in w.clients
    requires env.history == Ok(msgs)
    ensures var w' := Handle(w, admins, user, text, env);
      var n := |WithMedia(msgs)|;
      && |w'.trace| > |w.trace|
      && Count(w'.trace[|w.trace| + 1..], IsFailureNotice) == FailingRuns(env.runs, n)
      && Count(w'.trace[|w.trace| + 1..], IsDelivery) == n - FailingRuns(env.runs, n)
      && w'.progress - {user} == w.progress - {user}
      && w'.states == w.states && w'.clients == w.clients && w'.store == w.store
  {
    var items := Reversed(WithMedia(msgs));
    var w1 := w.(trace := w.trace + [Queried(w.clients[user], Range(text).chat, Range(text).minId, Range(text).maxId)]);
    var s := RunAll(w1.progress, user, items, env.runs);
    RunAllReport(w1.progress, user, items, env.runs);
    var w' := Handle(w, admins, user, text, env);
    assert w'.trace == w1.trace + s.events;
    assert w'.trace[|w.trace| + 1..] == s.events;
  }

  /** Registered implies persisted is kept by every handler. */
  lemma HandlersKeepValid(w: World, admins: set<UserId>, user: UserId, text: string, env: Platform,
                          disconnect: Status, delete: Status)
    requires Valid(w)
    ensures Valid(Start(w, admins, user))
    ensures Valid(Login(w, admins, user))
    ensures Valid(Logout(w, user, disconnect, delete))
    ensures Valid(Handle(w, admins, user, text, env))
  {
    if user in admins {
      if user in w.states && w.states[user] == AwaitingPhone {
        PhoneStepKeepsValid(w, user, text, env);
      } else if user in w.states && w.states[user].Pending? {
        OtpStepKeepsValid(w, user, env);
      }
    }
  }

  lemma PhoneStepKeepsValid(w: World, user: UserId, phone: string, env: Platform)
    requires Valid(w)
    ensures Valid(PhoneStep(w, user, phone, env))
  {
  }

  /** A successful code stores the session before it registers the client. */
  lemma OtpStepKeepsValid(w: World, user: UserId, env: Platform)
    requires Valid(w) && user in w.states && w.states[user].Pending?
    ensures Valid(OtpStep(w, user, env))
  {
  }

  /** Restoring adds connections for stored sessions only. */
  lemma RestoreKeepsValid(w: World, outcome: (UserId, string) -> RestoreOutcome)
    requires Valid(w)
    ensures Valid(RestoreAll(w, outcome))
  {
  }
}
