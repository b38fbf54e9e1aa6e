# Telegram range-download bot: a Dafny model

The bot lets an operator on an allow-list (`ADMINS`) do three things:
- log a user account in over chat (`/login`, phone number, one-time code);
- persist the account's session string in a session store;
- send two `https://t.me/c/<chat>/<message>` links, so the bot downloads
  every media message in that range and sends each one back as a document,
  showing a progress message while it downloads.

At startup it reconnects every stored session. This project models that
logic and proves properties of it.

- `outcomes.dfy` (`Outcomes`): `Option`, the `Outcome` of a platform call
  that returns a value (`Ok` or `Err` with the exception text), and the
  `Status` of a call that returns nothing (`Done` or `Raised`).
- `links.dfy` (`Links`): covers three things:
  - `parse_tg_link`, as a parser (`ParseTgLink`) next to a reference
    definition of the pattern it matches (`IsLink`);
  - Python's `str.strip()` and `str.split("\n")`;
  - the two-line range request (`Range`).
- `attachments.dfy` (`Attachments`): the media shapes and `get_filename`.
- `events.dfy` (`Events`): everything the bot makes visible (replies with
  their exact texts, progress messages, document sends, the history query),
  recorded as a trace of events.
- `pipeline.dfy` (`Pipeline`): the download pipeline and its bookkeeping:
  - the collect loop and the reversed processing order;
  - `progress_callback`'s bookkeeping of `PROGRESS_MESSAGES`;
  - one item of the download loop with its `try`/`except`;
  - the whole loop (`RunAll`).
- `restore.dfy` (`Restore`): what `restore_sessions` registers.
- `session.dfy` (`Session`): the bot's tables as a `World`:
  - `USER_STATES`, `ACTIVE_CLIENTS`, the session store, `PROGRESS_MESSAGES`
    and the trace;
  - one transition function per handler (`Start`, `Login`, `Logout`,
    `Handle`, `RestoreAll`);
  - the lemmas that state what the handlers promise.
- `bot.dfy` (`Bot`): class `Bot` keeps those tables as fields and updates
  them in place. It has one method per handler, and loops for downloading,
  the progress callbacks and restoring. The collect loop is
  `Pipeline.CollectMedia`. Each method's `ensures`
  ties its new state to the matching `Session` or `Pipeline` function of the
  old state.

Every platform call is a parameter of the operation that makes it, except
the store scan `sessions.find()` of `restore_sessions` and the replies
listed under "## Left out", which the model takes to succeed. A parameter
is an `Outcome` or `Status`, or, for connections, an opaque `ClientId`.
The parameters cover:
- Telethon's `connect`, `send_code_request`, `sign_in`, `iter_messages`,
  `download_media` and `is_user_authorized`;
- the store's `update_one` and `delete_one`;
- the bot API's progress sends, edits and deletes, the "Saved" reply, the
  login confirmation and `send_document`.

A `Platform` value gives the answers for one message. Its `runs(i)` field
answers item `i` of the download loop in processing order:
- the rendered timestamp;
- one answer per progress callback;
- the download's outcome;
- the deletion of the progress message;
- the "Saved" reply;
- the document send.

### Behaviour of the code worth noting
- **Failed phone step.** If `connect` or `send_code_request` raises, nothing
  catches it. The state stays `AWAITING_PHONE` and no reply is sent. See
  `Session.PhoneStepOutcome`.
- **Failed code step.** If sign-in or the upsert raises, the pending record
  stays in `USER_STATES`. The next message is taken as the code again, so a
  retry in place is possible. See `Session.OtpFailureRetries`.
- **Logout.** `/logout` does not clear `USER_STATES`. See
  `Session.LogoutKeepsLoginState`.
- **Order of the guards.** The line-count check comes before the login check,
  and the chat id of the second link is discarded. See `Session.LinkGuards`
  and `Session.LinkQuery`.
- **Range bounds.** `min_id` and `max_id` go to the history query as the
  links give them.
- **Progress messages.** After a failed item, its progress message is not
  deleted. The next item sends a new one, so more than one progress message
  can exist per request. See `Pipeline.FailedItemKeepsProgress`.

## Model

| member | source | states |
|---|---|---|
| Links.ParseTgLink | main.py:41-46 | a pair comes back only for text that starts with `https://t.me/c/` and has at least three more characters |
| Links.ParseTgLinkMatches | main.py:41-46 | the parse succeeds if and only if the text is the prefix, then one or more digits, `/`, one or more digits, then anything (the match is anchored at the start only) |
| Links.ShapeOfParse | main.py:42-45 | a successful parse exhibits the digit runs and the trailing text of the pattern, with the second run taken whole, and its ids are the values of the two runs |
| Links.PiecesOfIds | main.py:42-45 | the same pieces for the text after the prefix: two non-empty digit runs around a slash, the second taken whole, whose values are the ids |
| Links.ParseIds | main.py:42-45 | the part after the prefix gives ids only when it has at least three characters (`x/y`); that it accepts exactly digits, `/`, digits is `Links.ParseTgLinkMatches` |
| Links.ParseOfShape | main.py:42-45 | text of the pattern's shape parses, and the chat id is the value of the first digit run |
| Links.ParseTgLinkValue | main.py:42-45 | the two numbers are the decimal values of the two digit runs, the second taken greedily |
| Links.DecimalValue | main.py:45 | reading back the decimal rendering of a number gives that number |
| Links.LinkRoundTrip | main.py:41-46 | a link built from a chat id and a message id, with anything after it that does not continue the digits, parses back to those two ids |
| Links.Strip | main.py:147 | the result is the text with its leading and trailing whitespace removed: a slice of the input whose ends are not whitespace, and everything cut off is whitespace |
| Links.StripUnchanged | main.py:147 | text without whitespace at either end is left unchanged |
| Links.SplitLines | main.py:147 | like `str.split`, the result always has at least one piece; its meaning is `Links.SplitLinesProperties` |
| Links.SplitLinesProperties | main.py:147 | joining the pieces with newlines gives the text back, no piece contains a newline, and there is one more piece than there are newlines |
| Links.SplitJoin | main.py:147 | splitting newline-joined pieces that contain no newline gives back those pieces |
| Links.Range | main.py:147-153 | the request is refused if and only if the stripped text is not exactly two lines; otherwise the chat and start id come from the first line's parse and the end id from the second line's |
| Links.RangeOfTwoLinks | main.py:147-153 | two links on two lines name the first link's chat and the range from its message id to the second link's message id; the second link's chat id plays no part |
| Events.Words | main.py:88-193 | the words of every reply are non-empty and start with the letter that tells that reply from the others with the same emblem |
| Events.Text | main.py:88-193 | every reply text is longer than two characters: an emblem, a space, then the words |
| Events.TextTellsRepliesApart | main.py:88-193 | equal reply texts are the same kind of reply, and a "Saved" reply or a login error names exactly one file or error |
| Attachments.FirstFileName | main.py:77-79 | absent if and only if no attribute is a file-name attribute; otherwise the name of the first one |
| Attachments.GetFilename | main.py:75-82 | a document gets its first file-name attribute's name, or `file_<stamp>` when it has none; a photo gets `photo_<stamp>.jpg`; any other media gets `file_<stamp>` |
| Pipeline.WithMedia | main.py:160-163 | the kept messages all have media, and a message is kept if and only if it was enumerated and has media |
| Pipeline.CollectMedia | main.py:160-163 | the collect loop returns exactly the media-bearing messages in enumeration order |
| Pipeline.Reversed | main.py:165 | position `i` of the result holds position `n-1-i` of the input |
| Pipeline.WithMediaKeepsOrder | main.py:160-163 | newest-first enumeration stays newest first after the filter |
| Pipeline.ProcessingOrder | main.py:160-165 | enumerated newest first, the items are processed oldest first, and each has media |
| Pipeline.Callback | main.py:61-72 | the callback never touches another chat's entry; with a message on record, the table is unchanged (only an edit happens); it adds at most one event |
| Pipeline.FirstOk | main.py:70-72 | absent if and only if every send failed; otherwise the id of the first successful send |
| Pipeline.CallbacksFromReset | main.py:61-72 | after the reset to `None`, the table ends holding the id of the first successful send; at most one progress message is sent; every event is a send or edit of that one message in the user's chat |
| Pipeline.CallbacksQuiet | main.py:61-72 | until a send succeeds, the callbacks make no visible event at all |
| Pipeline.Callbacks | main.py:61-72 | the callbacks of one download add at most one event each, all of them progress sends or edits in the user's own chat, and touch no other chat's entry |
| Pipeline.Item | main.py:165-193 | an item touches no other chat's entry, and adds exactly one failure reply and no document when any of its steps raises, one document and no failure reply otherwise |
| Pipeline.AfterDownload | main.py:170-193 | after a raising download, one failure reply; after a successful one, as `Pipeline.Finish`; only the caller's entry can change |
| Pipeline.Fail | main.py:192-193 | the `except` branch: one failure reply, no document, the table unchanged |
| Pipeline.Finish | main.py:178-190 | the entry is dropped exactly when its id is truthy and the deletion went through; a raising deletion, "Saved" reply or document send gives one failure reply, otherwise one document |
| Pipeline.Deliver | main.py:185-190 | the table is untouched; if the "Saved" reply or the document send raises, one failure reply and no document, otherwise one document |
| Pipeline.ItemEnding | main.py:185-193 | a failing item ends with the failure reply naming the file and the exception text; a successful one ends with "Saved" followed by the document |
| Pipeline.AfterDownloadEnding | main.py:185-193 | the events after the download end the same way as the item: the failure reply with the exception text, or "Saved" followed by the document |
| Pipeline.ItemTable | main.py:168-183 | after an item the entry is gone if the download succeeded and a truthy progress id was deleted; otherwise the entry holds the first sent id |
| Pipeline.FailedItemKeepsProgress | main.py:168-193 | a failed download leaves its progress id on the table and deletes no progress message |
| Pipeline.RunAllReport | main.py:165-193 | failure isolation: the loop sends one failure reply per failing item and one document per other item, whatever happened before |
| Pipeline.RunAll | main.py:165-193 | the whole loop touches only the requesting chat's progress entry |
| Restore.Restored | main.py:196-207 | exactly the stored records whose connection came up authorized are registered, each with its own connection |
| Restore.RestoreCount | main.py:196-207 | of N stored records with K failed or unauthorized, N-K are registered |
| Restore.RestoredStep | main.py:197-205 | handling one more record adds its connection when it is authorized and changes nothing otherwise, in any order |
| Session.Start | main.py:85-88 | `/start` changes no table; an admin gets exactly the welcome reply |
| Session.Login | main.py:90-96 | `/login` changes only the caller's login state, never a client, the store or a progress entry, and sends at most one reply |
| Session.Logout | main.py:98-104 | `/logout` only removes, and only the caller's live client and stored record; it leaves the login state and the progress table alone and sends at most one reply |
| Session.PhoneStep | main.py:114-124 | the phone step changes only the caller's login state, registers and stores nothing, and sends at most one reply |
| Session.OtpStep | main.py:126-143 | the code step changes only the caller's state, client and stored record, never a progress entry, and always sends exactly one reply |
| Session.LinkRequest | main.py:146-193 | a link request never changes the login state, the live clients or the store, touches only the caller's progress entry, and always makes at least one visible event (a reply or the query) |
| Session.Handle | main.py:106-193 | a message from one user changes no other user's login state, client, stored record or progress entry, and only appends to what was sent |
| Session.RestoreAll | main.py:196-207 | restoring changes only the live clients; it keeps every existing one and adds new ones only for stored users |
| Session.NonAdminIgnored | main.py:85-109 | for a user outside `ADMINS`, `/start`, `/login` and every message change no table and send nothing |
| Session.LoginAwaitsPhone | main.py:90-96 | `/login` from an admin sets the state to `AWAITING_PHONE` whatever it was, asks for the phone, and changes nothing else |
| Session.LogoutWithoutSession | main.py:98-104 | with no live client, `/logout` is the delete-by-key and the standard reply; doing it twice ends in the same tables as once |
| Session.LogoutKeepsLoginState | main.py:98-104 | `/logout` never changes the login state or the progress table; the live client is gone unless its disconnect raised; once the disconnect and the delete return, the record is gone and exactly "Session terminated." is sent, and otherwise nothing is sent |
| Session.PhoneStepOutcome | main.py:114-124 | the pending record is stored and the code is asked for if and only if the connection and the code request both succeed; otherwise nothing changes |
| Session.OtpSuccess | main.py:126-141 | a successful sign-in and upsert store the session and then register the client; the state is cleared once the confirmation is delivered |
| Session.OtpFailureRetries | main.py:126-143 | a sign-in or upsert failure sends exactly one error reply to the user, carrying the exception's text, and leaves the state, the clients, the store and the progress table unchanged |
| Session.NonLinkIgnored | main.py:111-146 | with no login under way, an admin's text that does not start with `https://t.me/c/` changes nothing and sends nothing |
| Session.LoginTakesPrecedence | main.py:111-146 | while a login is under way, a message only reaches the login flow: no progress entry changes and only replies are sent, even for a link |
| Session.LinkGuards | main.py:146-158 | a request that is not two lines, or one from a user without a live client, gets exactly one error reply and nothing else |
| Session.LinkQuery | main.py:152-161 | the history query uses the user's client, the first link's chat and message id, and the second link's message id |
| Session.LinkReport | main.py:146-193 | an accepted request reports one failure per failing item and one document per other item; it changes no session table and no other chat's progress entry |
| Session.HandlersKeepValid | main.py:85-143 | every handler keeps a live client registered only for a stored session |
| Session.PhoneStepKeepsValid | main.py:114-124 | the phone step keeps a live client registered only for a stored session |
| Session.OtpStepKeepsValid | main.py:129-141 | the code step stores the session before registering the client, so the invariant holds |
| Session.RestoreKeepsValid | main.py:196-207 | restoring registers connections only for stored sessions |
| Bot.Bot.constructor | main.py:30-38 | the process starts with empty in-memory tables over the persisted store |
| Bot.Bot.Start | main.py:85-88 | the new state of `start` is `Session.Start` of the old one |
| Bot.Bot.Login | main.py:90-96 | the new state of `login` is `Session.Login` of the old one |
| Bot.Bot.Logout | main.py:98-104 | the new state of `logout` is `Session.Logout` of the old one |
| Bot.Bot.HandleMessage | main.py:106-193 | the new state of `handle_message` is `Session.Handle` of the old one, and the registered-implies-stored invariant holds |
| Bot.Bot.PhoneStep | main.py:114-124 | updates the tables in place as `Session.PhoneStep` |
| Bot.Bot.OtpStep | main.py:126-143 | updates the tables in place as `Session.OtpStep` |
| Bot.Bot.LinkRequest | main.py:146-193 | updates the tables in place as `Session.LinkRequest` |
| Bot.Bot.ProgressCallback | main.py:61-72 | updates `PROGRESS_MESSAGES` and the trace as `Pipeline.Callback` |
| Bot.Bot.DownloadItems | main.py:165-193 | the loop over the collected messages in reverse leaves the table and the trace as `Pipeline.RunAll` |
| Bot.Bot.DownloadNext | main.py:165-193 | one more iteration extends the loop state by one item |
| Bot.Bot.DownloadItem | main.py:166-193 | one item updates the table and the trace as `Pipeline.Item` |
| Bot.Bot.DownloadWithProgress | main.py:171-176 | the callbacks of one download update the table and the trace as `Pipeline.Callbacks` |
| Bot.Bot.FinishItem | main.py:178-193 | deletes a truthy progress message, then delivers, as `Pipeline.Finish` |
| Bot.Bot.DeliverItem | main.py:185-193 | the "Saved" reply and the document send, as `Pipeline.Deliver` |
| Bot.Bot.RestoreSessions | main.py:196-207 | the scan of the store registers exactly `Restore.Restored` and keeps the invariant |
| Bot.Bot.RestoreRecord | main.py:198-207 | one record's `try` block adds its connection to the registered ones only when it is authorized |

## Left out
- Networking, the database driver and the bot API are not executed. Each
  call is an outcome parameter, so its concrete effect on the platform is
  not modelled.
- The scheduling of progress callbacks is left out. Each call of the
  callback given to `download_media` creates a task with
  `asyncio.create_task`; as a modelling choice, the model runs the
  callbacks as sequential calls during the download, in report order.
- Bot replies outside a `try` are assumed to be delivered: the welcome, the
  phone prompt, the code prompt, the logout confirmation, the guard replies
  and the error replies. An exception there would end the handler early. For
  the code prompt (main.py:124), the pending record would already be set
  while no prompt arrives; `Session.PhoneStep` always appends `AskCode`.
- Where replies go: every `reply_text` answer is recorded as sent to the
  chat `user`. The source answers in the chat the message came from, which
  is the user's own chat only in a private chat with the bot. Progress
  messages and documents are sent to `user_id` in the source as well.
- Session.RestoreAll: the store scan `sessions.find()` (main.py:197) is taken
  to succeed and to yield every stored record. In the source it sits outside
  the per-record `try`, so an exception from the scan stops the restore part
  way, with only the records seen so far restored.
- Whether a raising progress send reaches `download_media` depends on the
  platform library. As a modelling choice, a failed send leaves the table
  as it was, and the download's own outcome is an independent parameter.
- The progress text is not modelled: the percentage, the size, the speed and
  the `humanize` formatting are floating point and library formatting. Only
  the table bookkeeping is modelled.
- `datetime.now()` is a parameter: each item's `stamp` is the rendered
  timestamp, as text.
- The precise range semantics of `min_id`/`max_id` belong to the platform.
  The model records the query with the ids the links gave.
- Links.ParseTgLink: digits are the ASCII digits. Python's `\d` and `int()`
  also accept other Unicode decimal digits.
- Links.ParseTgLink: the digit runs may have any length. Recent Python
  versions (3.11 and later, and security releases of 3.7 to 3.10) make
  `int()` raise `ValueError` on a decimal string longer than 4300 digits,
  so `parse_tg_link` raises on such a link, where the model returns a pair.
  The bot never meets one: a text message holds at most 4096 characters.
- Links.Strip: whitespace is the ASCII whitespace plus the separators
  U+001C..U+001F. Python's `str.strip()` also removes other Unicode
  whitespace.
- Attachments.GetFilename: a document whose `document` field is missing is
  not modelled. Neither is the timestamp's float rendering. In the source,
  `get_filename` runs at main.py:166, before the per-item `try` at
  main.py:170, so the `AttributeError` from `media.document.attributes`
  (main.py:77) escapes `handle_message`. That item gets no failure reply and
  no later item of the range is processed. On that path the source does not
  have the per-item failure isolation that `Pipeline.RunAllReport` and
  `Session.LinkReport` prove for the model.
- Bot.Bot.RestoreSessions: the store's scan order is not modelled; records
  are taken in any order. Since records are keyed by user, the order does
  not change the result.
- A stored record without a `user_id` or `session` field is left out. So is
  the log line `restore_sessions` prints.
- The Flask keep-alive server, the environment and `ADMINS` parsing, and the
  event loop and threads are left out. `ADMINS` is the set the bot is built
  with.
