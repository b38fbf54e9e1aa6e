/** What the bot makes visible: its messages to the operator and the history
    query it sends on the user's connection. */
module Events {
  import opened Outcomes

  /** A platform user id; in a private chat with the bot, also the chat id. */
  type UserId = int

  /** An opaque handle for one platform client connection. */
  type ClientId = nat

  /** A bot message id. */
  type MsgId = int

  /** The texts the bot replies with. */
  datatype Notice =
    | Welcome
    | AskPhone
    | AskCode
    | LoginOk
    | LoginError(detail: string)
    | SessionTerminated
    | NeedTwoLinks
    | NotLoggedIn
    | Saved(fileName: string)
    | DownloadFailed(fileName: string, detail: string)

  datatype Event =
    | Reply(chat: UserId, notice: Notice)
      /** A new progress message was sent and got id `msg`. */
    | ProgressSent(chat: UserId, msg: MsgId)
    | ProgressEdited(chat: UserId, msg: MsgId)
    | ProgressDeleted(chat: UserId, msg: MsgId)
    | DocumentSent(chat: UserId, path: string, fileName: string)
      /** `iter_messages(chat, min_id=minId, max_id=maxId)` on a client. */
    | Queried(client: ClientId, chatId: Option<nat>, minId: Option<nat>, maxId: Option<nat>)

  /** The emblem each reply starts with. */
  function Emblem(n: Notice): char {
    match n
    case Welcome => '🔑'
    case AskPhone => '📱'
    case AskCode | SessionTerminated => '🔒'
    case LoginOk | Saved(_) => '✅'
    case LoginError(_) | NeedTwoLinks | NotLoggedIn | DownloadFailed(_, _) => '❌'
  }

  /** The words after the emblem; each kind of reply with a given emblem
      starts its words with a different letter. (The two longest texts are
      written as two literals joined, which the verifier indexes more
      readily than one long literal.) */
  function Words(n: Notice): (r: string)
    ensures |r| > 0 && r[0] == Initial(n)
  {
    match n
    case Welcome => "Welcome! Use /login to start."
    case AskPhone => "Please send your phone number " + "(e.g., +1234567890):"
    case AskCode => "Enter the Telegram OTP you received:"
    case LoginOk => "Login successful!"
    case LoginError(d) => "Error: " + d
    case SessionTerminated => "Session terminated."
    case NeedTwoLinks => "Send exactly 2 message links " + "(start and end)."
    case NotLoggedIn => "Not logged in! Use /login first."
    case Saved(f) => "Saved: " + f
    case DownloadFailed(f, d) => "Failed to download " + f + ": " + d
  }

  /** The first letter of each reply's words. */
  function Initial(n: Notice): char {
    match n
    case Welcome => 'W'
    case AskPhone => 'P'
    case AskCode | LoginError(_) => 'E'
    case LoginOk => 'L'
    case SessionTerminated | NeedTwoLinks | Saved(_) => 'S'
    case NotLoggedIn => 'N'
    case DownloadFailed(_, _) => 'F'
  }

  /** The exact text of each reply: an emblem, a space, then the words. */
  function Text(n: Notice): (r: string)
    ensures |r| > 2 && r[1] == ' '
  {
    [Emblem(n), ' '] + Words(n)
  }

  /** The kind of a reply, without its parameters. */
  function Kind(n: Notice): nat {
    match n
    case Welcome => 0
    case AskPhone => 1
    case AskCode => 2
    case LoginOk => 3
    case LoginError(_) => 4
    case SessionTerminated => 5
    case NeedTwoLinks => 6
    case NotLoggedIn => 7
    case Saved(_) => 8
    case DownloadFailed(_, _) => 9
  }

  /** The operator can tell the replies apart by their text: equal texts are
      the same kind of reply, and a "Saved" reply or a login error names
      exactly one file or one error. */
  lemma TextTellsRepliesApart(a: Notice, b: Notice)
    requires Text(a) == Text(b)
    ensures Kind(a) == Kind(b)
    ensures a.Saved? || a.LoginError? ==> a == b
  {
    assert Emblem(a) == Text(a)[0] == Text(b)[0] == Emblem(b);
    assert Words(a) == Text(a)[2..] == Text(b)[2..] == Words(b);
    assert Initial(a) == Words(a)[0] == Words(b)[0] == Initial(b);
    if a.Saved? {
      var head := "Saved: ";
      assert a.fileName == Words(a)[|head|..] == Words(b)[|head|..] == b.fileName;
    } else if a.LoginError? {
      var head := "Error: ";
      assert a.detail == Words(a)[|head|..] == Words(b)[|head|..] == b.detail;
    }
  }
}
