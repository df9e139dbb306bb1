# telegram-torrent, modelled in Dafny

telegram-torrent is a Telegram bot. A user who is subscribed to a channel
sends a magnet link; the bot stores it as a queued torrent. A background
controller (the file handler) repeatedly takes the first unstarted torrent,
resolves and downloads it, uploads the file to Telegram and records the
outcome in a PostgreSQL table. This project models the sequential core of
that system and proves properties of the model:

- `Controller` (filehandler.dfy): one pass of `FileHandler.handle` —
  `loadTorrent`, the pre-load writes, the download, `uploadTorrent`, the
  post-load writes and `torrentError`. The class `FileHandler` holds the
  repository (a `Store.Queries`) and its settings; each method is proved
  equal to a specification function over a trace of collaborator calls
  (`Call`), and the table is proved to end up as exactly the writes of that
  trace (`Effect`). The loader, the uploader and the clock answer through an
  `Outcomes` parameter.
- `Store` (store.dfy): the sqlc statements of `queries.sql.go` as table
  operations on sequences of rows, with SQL's three-valued logic for
  comparisons with NULL; the class `Queries` holds the four tables and
  reassigns them. Driver failures are parameters.
- `Dialog` (bot.dfy): the chat dialog of `internal/bot/command.go` — the
  subscription gate, the routing over the per-user `usersLastCommand` map,
  the command handlers and `torrentsToString`. The class `Bot` holds the map
  and the database; each handler is proved equal to a function returning a
  `Turn` (new map, replies sent, error, torrents table). Telegram sends,
  chat-member lookups, the magnet parser and the clock are parameters.
- `InMemoryDatabase` (database.dfy): the per-user append-only map of
  `internal/database/database.go`.
- `Torrents` (torrent.dfy): `internal/torrent/torrent.go`,
  `internal/torrent/torrentlist.go` and their verbatim duplicates in
  `internal/database/torrent.go`, modelled once: the statuses, `New` with
  the magnet parser as a function parameter, the parse error text, and the
  numbered list rendering.
- `TypeDetect` (typedetect.dfy): extension classification, with Go's MIME
  table as a function parameter.
- `Strconv` and `Errors` (strconv.dfy, errors.dfy): the pieces of the Go
  library the core's observable results depend on — `%d`, `%q`,
  `strconv.ParseInt(s, 10, 64)`, `fmt.Errorf` with `%w`, `err.Error()` and
  `errors.Is`. `Wrappers` holds `Option` and `Result`.

Assumptions the model makes about the SQL text:

- Three statements cannot run as written (see Findings). The queries at
  `internal/database/backend/queries.sql.go:75` and `:148` join on
  `t.user_id`, a column the `torrents` table does not have
  (`internal/database/backend/models.go:12-22`), and `:149` filters on
  `u.sent`, which `users` does not have; `GetSetting` (`queries.sql.go:101`)
  compares with `==`, an operator PostgreSQL does not define. The server
  refuses each such statement on every call. The as-written members model
  that refusal (`Store.FirstUnstartedAsWritten`,
  `Store.UnsentUsersAsWritten`, `Store.SelectSettingAsWritten`); the rest of
  the model uses the evidently intended `txu.user_id`, `txu.sent` and
  `user_id = $2`.
- Rows come back in table order (the order of the sequence). Where an
  `ORDER BY` leaves a tie, the earlier join row wins.
- `AddTorrentXUser` inserts a row with `sent` FALSE (the column's default).
- `GetFirstUnstartedTorrent` is also written with `time_started = NULL`
  (`queries.sql.go:76`). That comparison is never TRUE, so even with the
  join repaired the statement returns no row on any store (see Findings).
  The controller is modelled with the evidently intended
  `time_started IS NULL`.

A torrent whose upload failed does not keep its start time: `torrentError`
writes through `UpdateTorrentStatus`, which overwrites all three status
columns and so writes NULL into `time_started` (`Controller.FailedPassState`).

Four consequences of the code are proved rather than corrected:

- The bot inserts an added torrent into `torrents` but never links it to
  its user in `torrent_x_user`, so it never shows up in that user's
  `/listtorrents` (`Dialog.AddedTorrentIsNotListed`).
- A failed subscription check sends the "unavailable" notice and then,
  since `subscribed` stays false, the subscription message as well
  (`Dialog.FailedCheckSendsTwoMessages`).
- With the `IS NULL` selection, every pass (successful, or failed with the
  failure recorded) leaves its torrent with a NULL start time, so the same
  torrent is selected again (`Controller.ProcessedTorrentIsPendingAgain`).
- A failed pass leaves the message id column alone unless it wrote it. When
  the upload succeeds and its id is written but the finish-status write
  fails, the row ends with both the message id and the error
  (`Controller.MessageIdBesideError`). A torrent selected again after a
  successful pass keeps its old message id when the next pass fails
  (`Controller.FailedPassState`).

## Model

| member | source | states |
|---|---|---|
| Strconv.FormatInt | internal/torrent/torrentlist.go:19 | `%d` of an integer is a non-empty run of decimal digits, preceded by `-` exactly for negative values |
| Strconv.ParseInt | internal/bot/command.go:53 | every failure of `strconv.ParseInt(s, 10, 64)` is a `*NumError` naming `ParseInt` and the input; the empty string is a syntax error |
| Strconv.ParseIntOfFormatInt | internal/bot/command.go:53 | for every int64, parsing its decimal rendering gives it back: a channel id stored with `%d` is read back by `ParseInt` |
| Strconv.Quote | internal/torrent/torrent.go:21 | `%q` of a string is enclosed in double quotes |
| Strconv.UnquoteQuote | internal/torrent/torrent.go:21 | `%q` loses nothing: the original string is read back from its quoted form |
| Errors.WrappedTextIsKept | internal/filehandler/filehandler.go:141 | when `errors.Is(e, target)`, the text of `target` occurs inside the text of `e`: wrapping with `%w` keeps every cause's message |
| TypeDetect.GetMimeTypeByExtension | utils/files/typedetect.go:12-27 | `""` for `""`; otherwise never empty: the table's type for the dotted extension when it knows it, else `application/octet-stream` |
| TypeDetect.Dotted | utils/files/typedetect.go:17-19 | a leading dot is added exactly when the extension has none |
| TypeDetect.DotIsOptional | utils/files/typedetect.go:17-20 | `x` and `.x` get the same MIME type |
| TypeDetect.ListContains | utils/files/typedetect.go:30 | `slices.Contains` is membership in the list |
| TypeDetect.IsVideo | utils/files/typedetect.go:29-31 | true exactly for the members of the video list |
| TypeDetect.IsAudio | utils/files/typedetect.go:33-35 | true exactly for the members of the audio list |
| TypeDetect.VideoExactly | utils/files/typedetect.go:8 | the video extensions are exactly `.mp4 .mkv .avi .mov .wmv .flv .webm` |
| TypeDetect.AudioExactly | utils/files/typedetect.go:9 | the audio extensions are exactly `.mp3 .wav .aac .flac .ogg .m4a .wma` |
| TypeDetect.VideoAndAudioDisjoint | utils/files/typedetect.go:8-9 | no extension is both video and audio |
| TypeDetect.UndottedIsNeither | utils/files/typedetect.go:29-35 | the two tests add no dot: an extension without a leading dot is neither video nor audio |
| Torrents.StatusesDistinct | internal/database/torrent.go:8-12 | the three statuses are distinct strings |
| Torrents.New | internal/torrent/torrent.go:29-41 | a rejected link gives the zero Torrent and a parse error carrying the link and the parser's message; an accepted link gives that link with status "в очереди" |
| Torrents.ParseErrorNamesLink | internal/torrent/torrent.go:20-22 | the error text starts with `torrent link ` followed by the quoted link, from which the rejected link is read back |
| Torrents.ClosingBacktick | internal/torrent/torrent.go:43-45 | in the rendering of a torrent whose link has no backtick, the link sits between the first two backticks |
| Torrents.TorrentStringInjective | internal/database/torrent.go:19-21 | two torrents whose links hold no backtick render alike only when link and status are equal |
| Torrents.NumberedAppend | internal/torrent/torrentlist.go:18-21 | numbering a concatenation numbers the second part on from where the first stopped |
| Torrents.EntryAt | internal/database/torrent.go:25-38 | a non-empty list renders as the header, then for each element in list order `\n`, its index plus one, `) ` and its String(); element i sits between the entries before and after it |
| Torrents.TorrentListString | internal/torrent/torrentlist.go:10-24 | the builder loop yields the list text: exactly "У вас пока нет торрентов" for an empty list, and text starting with "Ваши торренты:\n" otherwise |
| InMemoryDatabase.Added | internal/database/database.go:15-19 | the user's list gains exactly one queued entry for the link at its end; every other user's list is unchanged; the user becomes a key |
| InMemoryDatabase.AddedAllKeepsOrder | internal/database/database.go:16 | successive additions append one queued entry per link in the order added and leave other users' lists alone |
| InMemoryDatabase.FreshStoreListsAdditions | internal/database/database.go:9-21 | a new store followed by additions lists exactly the added links, queued, in order |
| InMemoryDatabase.Database.constructor | internal/database/database.go:9-13 | the cache starts empty |
| InMemoryDatabase.Database.AddTorrent | internal/database/database.go:15-21 | never fails, and the cache becomes `Added` of the old cache |
| InMemoryDatabase.Database.GetTorrents | internal/database/database.go:23-25 | never fails and returns the user's stored list, empty for an unknown user, leaving the cache as it was |
| Store.SqlEq | internal/database/backend/queries.sql.go:76 | a comparison with NULL is UNKNOWN, never TRUE; otherwise TRUE exactly for equal values |
| Store.IsNull | internal/database/backend/queries.sql.go:101 | `IS NULL` is TRUE exactly for NULL and never UNKNOWN |
| Store.Assign | internal/database/backend/queries.sql.go:229-300 | a SET list changes only the columns it names; id, link and time added never change |
| Store.AssignIdempotent | internal/database/backend/queries.sql.go:229-300 | applying a SET list twice is applying it once |
| Store.UpdateWhereLink | internal/database/backend/queries.sql.go:229-300 | every row with the link gets the SET list, every other row is kept, and no row is added, removed or moved |
| Store.UpdateWhereLinkIdempotent | internal/database/backend/queries.sql.go:277-300 | running the same UPDATE twice is running it once |
| Store.FinishWriteClearsStartAndError | internal/database/backend/queries.sql.go:277-283 | a status write carrying only a finish time sets `time_finished` and leaves `time_started` and `error` NULL on every row of that link |
| Store.SetSentWhere | internal/database/backend/queries.sql.go:302-317 | only the `sent` flag of rows of the (torrent, user) pair changes, nothing else |
| Store.SetPriorityWhere | internal/database/backend/queries.sql.go:319-333 | only the `priority` of the user with the id changes, nothing else |
| Store.Least | internal/database/backend/queries.sql.go:77-78 | `ORDER BY time_added ASC, priority DESC LIMIT 1` picks a candidate no other sorts before |
| Store.SelectFirst | internal/database/backend/queries.sql.go:69-79 | NoRows exactly when no candidate passes the filter; otherwise a least candidate's row |
| Store.NullCompareSelectsNothing | internal/database/backend/queries.sql.go:76 | with the join repaired but `time_started = NULL` kept, the statement returns NoRows on every store |
| Store.AsWrittenMissesPendingTorrent | internal/database/backend/queries.sql.go:69-79 | on a store with one unstarted torrent linked to a user, the statement as written is refused by the server, with only the join repaired it returns NoRows, and the intended one returns that torrent |
| Store.FirstUnstartedSpec | internal/database/backend/queries.sql.go:69-96 | the intended selection returns NoRows exactly when no unstarted torrent is linked to a user; otherwise an unstarted linked torrent that no other sorts before |
| Store.SelectSetting | internal/database/backend/queries.sql.go:98-116 | the only error of the lookup is NoRows |
| Store.AsWrittenMissesSetting | internal/database/backend/queries.sql.go:98-104 | on a table with a global channel_id, the statement as written is refused by the server while the intended one answers the global value to any user |
| Store.SettingPrefersUser | internal/database/backend/queries.sql.go:98-104 | when the user has a row for the name, the answer is the first such row's value, whatever global rows exist |
| Store.SettingFallsBackToGlobal | internal/database/backend/queries.sql.go:98-104 | without a row of the user's own, a global row (user_id NULL) answers; without either, NoRows |
| Store.SettingWithoutUserIsGlobal | internal/database/backend/queries.sql.go:98-104 | with a NULL user id only global rows can answer, since NULL = NULL is not TRUE |
| Store.SelectTorrent | internal/database/backend/queries.sql.go:118-139 | a row with the link, or NoRows exactly when no row has that link |
| Store.SelectUser | internal/database/backend/queries.sql.go:175-185 | a row with the id, or NoRows exactly when no row has that id |
| Store.TorrentsWithId | internal/database/backend/queries.sql.go:187-195 | the join matches exactly the torrents with the link row's torrent id |
| Store.UserTorrentsExactly | internal/database/backend/queries.sql.go:187-227 | the user's torrents are exactly the torrents named by one of the user's `torrent_x_user` rows |
| Store.UsersWithId | internal/database/backend/queries.sql.go:141-151 | the join matches exactly the users with the link row's user id |
| Store.UnsentUsersOfExactly | internal/database/backend/queries.sql.go:141-151 | the unsent users of one torrent are exactly the users named by one of its link rows with `sent` FALSE |
| Store.UnsentUsersExactly | internal/database/backend/queries.sql.go:141-173 | exactly the users linked, through a link row with `sent` FALSE, to a torrent with the link |
| Store.AsWrittenMissesUnsentUser | internal/database/backend/queries.sql.go:141-151 | on a store where one user waits for a torrent, the statement as written is refused by the server while the intended one returns that user |
| Store.CollectRows | internal/database/backend/queries.sql.go:196-227 | the scan loop returns all result rows in order unless the query, a scan of an existing row, or the final close fails; then it returns that driver error and no rows |
| Store.Queries.AddTorrent | internal/database/backend/queries.sql.go:14-30 | on success one row is appended holding the link, the time added and NULL in every other nullable column; on a driver error nothing changes |
| Store.Queries.AddTorrentXUser | internal/database/backend/queries.sql.go:32-48 | on success one unsent link row is appended; on a driver error nothing changes |
| Store.Queries.AddUser | internal/database/backend/queries.sql.go:50-67 | on success one user row is appended; on a driver error nothing changes |
| Store.Queries.UpdateTorrentMessageID | internal/database/backend/queries.sql.go:229-243 | on success only `message_id`, only on rows of the link; on a driver error nothing changes |
| Store.Queries.UpdateTorrentName | internal/database/backend/queries.sql.go:245-259 | on success only `name`, only on rows of the link; on a driver error nothing changes |
| Store.Queries.UpdateTorrentSize | internal/database/backend/queries.sql.go:261-275 | on success only `size`, only on rows of the link; on a driver error nothing changes |
| Store.Queries.UpdateTorrentStatus | internal/database/backend/queries.sql.go:277-300 | on success `time_started`, `time_finished` and `error` are overwritten together on rows of the link, an absent argument writing NULL |
| Store.Queries.UpdateTorrentXUser | internal/database/backend/queries.sql.go:302-317 | on success only the `sent` flag of the pair's rows; on a driver error nothing changes |
| Store.Queries.UpdateUserPriority | internal/database/backend/queries.sql.go:319-333 | on success only the user's `priority`; on a driver error nothing changes |
| Store.Queries.GetFirstUnstartedTorrent | internal/database/backend/queries.sql.go:69-96 | the driver's error, or the intended selection (see `Store.FirstUnstartedSpec`) |
| Store.Queries.GetSetting | internal/database/backend/queries.sql.go:98-116 | the driver's error, or the user-preferring lookup |
| Store.Queries.GetTorrent | internal/database/backend/queries.sql.go:118-139 | the driver's error, or a row with the link, or NoRows |
| Store.Queries.GetUser | internal/database/backend/queries.sql.go:175-185 | the driver's error, or the user with the id, or NoRows |
| Store.Queries.GetUserTorrents | internal/database/backend/queries.sql.go:187-227 | all of the user's torrents in table order, unless the query is interrupted, in which case only the driver's error |
| Store.Queries.GetUnsentUsersForTorrent | internal/database/backend/queries.sql.go:141-173 | all users still waiting for the torrent, unless the query is interrupted, in which case only the driver's error |
| Controller.JoinPath | internal/filehandler/filehandler.go:204 | an empty part is dropped; otherwise the directory and the name joined by exactly one `/` |
| Controller.PreLoadStopsAtFirstFailure | internal/filehandler/filehandler.go:218-252 | the pre-load writes go name, size, start time, as a prefix of that plan that stops at the first failing write; the step succeeds exactly when all three took effect |
| Controller.LoadRun | internal/filehandler/filehandler.go:159-201 | loadTorrent returns the torrent's info exactly when it returns no error |
| Controller.LoadRunResolved | internal/filehandler/filehandler.go:166-178 | a torrent resolved below the size limit goes on to the pre-load writes |
| Controller.LoadAfterPreLoad | internal/filehandler/filehandler.go:182-200 | after the pre-load writes, info is returned exactly when no error is |
| Controller.TorrentErrorOutcome | internal/filehandler/filehandler.go:279-292 | a nil failure makes no call and returns nil; a failure makes exactly one status write with the failure time and text, and the returned error is nil exactly when that write took effect, else wraps both causes |
| Controller.AsWrittenReadStopsEveryPass | internal/filehandler/filehandler.go:136-145 | with GetFirstUnstartedTorrent as written the read is refused on every store, so every pass makes only the read, writes nothing and returns the driver's error |
| Controller.ReadFailureStopsThePass | internal/filehandler/filehandler.go:136-145 | when the read fails (NoRows included) the pass makes only the read, writes nothing, never reaches the loader, and returns the read's error wrapped |
| Controller.OversizeNeverLoads | internal/filehandler/filehandler.go:172-174 | a torrent at least maxTorrentSize long fails with ErrMaxSize before any pre-load write, is never downloaded or uploaded, and its only write is the error status |
| Controller.LateCallsAreWrites | internal/filehandler/filehandler.go:254-292 | every call of the post-load step and of torrentError is a repository write |
| Controller.LoadCalls | internal/filehandler/filehandler.go:159-201 | loadTorrent's calls are the read-to-download prefix when it downloads, and otherwise contain neither a download nor an upload |
| Controller.HandleCalls | internal/filehandler/filehandler.go:135-157 | a pass is loadTorrent's calls followed by calls that are all repository writes, except that the upload may come first after a completed download |
| Controller.DownloadOnlyAfterPreLoad | internal/filehandler/filehandler.go:176-200 | the download happens exactly when the three pre-load writes took effect, once, right after them |
| Controller.UploadOnlyAfterDownload | internal/filehandler/filehandler.go:147-148 | the upload happens exactly when the download completed, right after it, with loadDir joined with the best name and the target domain |
| Controller.StepsBeforeTorrentError | internal/filehandler/filehandler.go:159-277 | before torrentError runs, no call writes an error status and every write is to the pass's own link |
| Controller.PassWritesOnlyItsLink | internal/filehandler/filehandler.go:135-157 | every write of a pass is to the link it read; a failed read writes nothing |
| Controller.OtherRowsUnchanged | internal/filehandler/filehandler.go:135-157 | a pass leaves every row of another link exactly as it was |
| Controller.FailureIsRecordedOnce | internal/filehandler/filehandler.go:137-153 | a failure after the link is known is recorded by exactly one error-status write, the last call, with the failure time and text; the returned error wraps the failure and, when that write fails, its error too |
| Controller.LoadFailureRecorded | internal/filehandler/filehandler.go:137-144 | a loadTorrent failure is followed by exactly one error-status write and reported as "failed to load torrent" |
| Controller.UploadOutcomeRecorded | internal/filehandler/filehandler.go:147-156 | after a successful load, an upload failure is recorded by exactly one error-status write and reported as "failed to upload torrent"; a successful upload writes no error status |
| Controller.RecordedAfter | internal/filehandler/filehandler.go:279-292 | calls without an error write followed by torrentError's write contain exactly one error write, the last |
| Controller.SuccessfulPassState | internal/filehandler/filehandler.go:254-277 | after a successful pass every row of the link holds the name, size, message id and finish time, with NULL start time and error |
| Controller.FailedPassState | internal/filehandler/filehandler.go:279-292 | after a failed pass whose error write took effect, every row of the link has a NULL start time, the failure time and the failure text; its name, size and message id are the values whose writes took effect before the failure, and otherwise what the row held |
| Controller.FailedRowState | internal/filehandler/filehandler.go:135-157 | the same for one row: the writes up to the failure, then torrentError's overwrite of the three status columns |
| Controller.MessageIdBesideError | internal/filehandler/filehandler.go:254-292 | when the message id is written and the finish-status write then fails, the row ends with both the message id and the error |
| Controller.ProcessedTorrentIsPendingAgain | internal/filehandler/filehandler.go:135-157 | with the intended selection, a pass that succeeds or records its failure leaves a torrent for the next read to find |
| Controller.FileHandler.constructor | internal/filehandler/filehandler.go:85-108 | the handler keeps the repository, download directory, target domain and size limit it is given |
| Controller.FileHandler.PreLoadUpdateTorrentState | internal/filehandler/filehandler.go:218-252 | its calls and error are the pre-load step's, and the table has had exactly those writes |
| Controller.FileHandler.LoadTorrent | internal/filehandler/filehandler.go:159-201 | reads the first unstarted torrent from the store as it was, then returns what loadTorrent returns for that read; the table has had exactly its writes |
| Controller.FileHandler.LoadRead | internal/filehandler/filehandler.go:164-200 | given the read's result, the link, info, calls and error are loadTorrent's, and the table has had exactly those writes |
| Controller.FileHandler.PostLoadUpdateTorrentState | internal/filehandler/filehandler.go:254-277 | the message-id write, then (if it took effect) a status write carrying only the finish time; the table has had exactly those writes |
| Controller.FileHandler.UploadTorrent | internal/filehandler/filehandler.go:203-216 | uploads loadDir joined with the name to the target domain, then the post-load writes on success; the table has had exactly those writes |
| Controller.FileHandler.TorrentError | internal/filehandler/filehandler.go:279-292 | its calls and error are torrentError's (see `Controller.TorrentErrorOutcome`), and the table has had exactly that write |
| Controller.FileHandler.Handle | internal/filehandler/filehandler.go:135-157 | one pass: its calls and error are those of the pass for what the read returns on the store as it was, and the table ends up with exactly the writes of those calls |
| Dialog.NotSubscribeAnswer | internal/bot/command.go:35 | the invitation starts with the fixed text and has the channel link right after it |
| Dialog.SendError | internal/bot/command.go:75-78 | a send fails exactly when Telegram reports a failure, and the returned error wraps that failure with the handler's context |
| Dialog.WrapIn | internal/bot/command.go:194-197 | a handler error is wrapped with the call, keeping its text after `: ` and staying `errors.Is` the original |
| Dialog.ValidateTorrentLink | internal/bot/command.go:38-44 | nil exactly when the parser accepts the link; otherwise an error wrapping the parser's |
| Dialog.ValidationAgreesWithNew | internal/bot/command.go:38-44 | the bot and `torrent.New` reject the same links, with the same error text |
| Dialog.Setting | internal/database/backend/connectingdb.go:57-63 | the bot's setting lookup asks the store for the user's own value first |
| Dialog.SubscribedExactly | internal/bot/command.go:46-69 | subscribed exactly when channel_id reads, parses as an int64 and the member status is neither "left" nor "kicked"; any failure on the way is an error, never a plain false |
| Dialog.BadChannelIdIsAnError | internal/bot/command.go:53-56 | a channel_id that is not a decimal int64 is an error wrapping the parse error |
| Dialog.ListingLineAt | internal/bot/command.go:244-250 | the listing is one `Name: <name>\n` line per torrent in list order |
| Dialog.TorrentsToString | internal/bot/command.go:244-250 | the loop yields the listing, `""` for no torrents |
| Dialog.RouteOf | internal/bot/command.go:192-240 | text that is not one of the four commands goes to adding exactly when the sender's entry is "/newtorrent", and to the unknown-command reply otherwise |
| Dialog.DispatchCommands | internal/bot/command.go:192-240 | a subscribed turn leaves the map as it was, without the sender's entry, or with "/newtorrent" for the sender |
| Dialog.OnlySendersEntryChanges | internal/bot/command.go:158-242 | every other user's entry is kept as it was |
| Dialog.UnsubscribedChangesNothing | internal/bot/command.go:163-191 | an unsubscribed sender, or a failed check, reaches no handler: map and store unchanged, one or two replies to the chat, each the unavailable notice or the invitation with the channel link |
| Dialog.FailedCheckSendsTwoMessages | internal/bot/command.go:163-191 | a failed check whose notice was sent produces two replies, the notice first |
| Dialog.ResettingCommandsForget | internal/bot/command.go:71-126 | /start, /help and /listtorrents delete exactly the sender's entry, whether or not the reply was sent, and add nothing to the store |
| Dialog.NewTorrentRecordedIffSent | internal/bot/command.go:95-103 | /newtorrent records "/newtorrent" for the sender exactly when its reply was sent; otherwise the map is unchanged and an error returned |
| Dialog.PlainTextRouting | internal/bot/command.go:224-240 | plain text goes to adding exactly when the sender's entry is "/newtorrent"; otherwise the unknown-command reply, map and store unchanged |
| Dialog.AddingClearsOnlyOnSuccess | internal/bot/command.go:128-156 | the sender's entry is deleted exactly when the link validates and the insert succeeds, and only then does the torrents table grow, by one row for the link |
| Dialog.AddedTorrentIsNotListed | internal/bot/command.go:135-147 | a torrent the bot adds is linked to no user, so no user's torrent list changes |
| Dialog.RefusedSettingsLockOut | internal/bot/command.go:158-191 | when both settings lookups fail, no handler runs, the map and the store are kept, and the replies are the unavailable notice, then (if that send succeeded) the unavailable notice again |
| Dialog.AsWrittenSettingLocksEveryoneOut | internal/bot/command.go:158-191 | with GetSetting as written every message from every user gets only the unavailable notice (twice when the first send succeeds) and changes nothing |
| Dialog.Bot.constructor | internal/bot/bot.go:26-38 | a new bot has no pending commands |
| Dialog.Bot.IsUserSubscribed | internal/bot/command.go:46-69 | the status or error is the subscription check's, and a failed check reports not subscribed |
| Dialog.Bot.HandleStartCommand | internal/bot/command.go:71-81 | deletes the sender's entry and sends the welcome with the help |
| Dialog.Bot.HandleHelpCommand | internal/bot/command.go:83-93 | deletes the sender's entry and sends the help |
| Dialog.Bot.HandleNewTorrentCommand | internal/bot/command.go:95-103 | asks for a link and records "/newtorrent" only once the question was sent |
| Dialog.Bot.HandleListTorrentCommand | internal/bot/command.go:105-126 | deletes the sender's entry and sends the listing in Markdown, or the unavailable notice when the query fails |
| Dialog.Bot.HandleAddingNewTorrent | internal/bot/command.go:128-156 | validates, inserts, clears the entry only on success, and replies once (see `Dialog.AddingClearsOnlyOnSuccess`) |
| Dialog.Bot.HandleMessage | internal/bot/command.go:158-242 | a whole turn equals the gate-then-dispatch function for the map and tables as they were, so every Dialog lemma above holds of it |

## Left out

- `FileHandler.Run` (internal/filehandler/filehandler.go:110-133): a ticker starting one goroutine per tick. The passes can run concurrently, and a read followed by a later start write lets two passes take the same torrent; a sequential model cannot express that race.
- The loader (internal/loader/loader.go) and the uploader (internal/uploader/uploader.go): foreign torrent and Telegram clients, templates and floating-point progress. They enter as outcomes: resolved info or failure, download success or failure, message id or failure. The progress callback and `loadTickInterval` are not modelled.
- Logging (slog) everywhere: it changes no state and returns nothing.
- `Bot.Start` and the creation of the Telegram client in `New` (internal/bot/bot.go:26-30, and `Start` from line 40): network code. Only the empty map at bot.go:35 is modelled.
- Telegram itself: each send's failure is a parameter. A turn sends at most two messages, so two send outcomes suffice.
- The clock: `time.Now()` readings and their `String()` renderings are parameters.
- SQL schema, constraints and serial ids: the id the database assigns to a new row is a parameter; uniqueness and foreign keys are not enforced.
- `internal/bot/bot.go:19-24`: the bot's `DBInterface` lists neither `GetSetting` nor `GetTorrents`, which command.go calls. The model routes the bot's database calls the way `internal/database/backend/connectingdb.go` does.
- `internal/gotdclient`, `cmd/bot/main.go` and `internal/application`: wiring and authentication with no logic of their own.
- Dialog.Bot.IsUserSubscribed: the `%#v` rendering of the chat-member config in the error text is a parameter (`memberConfigText`), not computed.
- Strconv.Quote: only `"`, `\` and the control characters \a \b \f \n \r \t \v are escaped. Go's `%q` also writes `\x`/`\u` escapes for other non-printable characters; these are not modelled.
- Controller.JoinPath: `path.Join` also cleans the result (`..`, `.`, repeated slashes); only the joining is modelled.
- Controller.FailedPassState: the model states no invariant that a finished row carries exactly one of a message id or an error, because the code does not keep one (`Controller.MessageIdBesideError`).
- Store.SelectSetting: its own contract states only the error case; what it returns is stated by `Store.SettingPrefersUser`, `Store.SettingFallsBackToGlobal` and `Store.SettingWithoutUserIsGlobal`.

## Findings

| source | as written | input that shows it | evidently intended | confidence | as-written member | corrected member |
|---|---|---|---|---|---|---|
| internal/database/backend/queries.sql.go:75 | `ON t.user_id = u.id`: `torrents` has no `user_id` column, so the server refuses `GetFirstUnstartedTorrent` on every call, and every pass of the file handler stops at the read | any store, e.g. one torrent never started, linked to one user | `ON txu.user_id = u.id` | not executed | Controller.AsWrittenReadStopsEveryPass | Store.FirstUnstartedSpec |
| internal/database/backend/queries.sql.go:76 | `WHERE time_started = NULL`: a comparison with NULL is UNKNOWN, so once the join of line 75 is repaired no row ever passes and `GetFirstUnstartedTorrent` always returns `sql.ErrNoRows` | one torrent, never started (`time_started` NULL), linked to one user: the statement returns no row | `WHERE time_started IS NULL`, which returns that torrent | not executed | Store.AsWrittenMissesPendingTorrent | Store.FirstUnstartedSpec |
| internal/database/backend/queries.sql.go:101 | `user_id == $2`: PostgreSQL defines no `==` operator, so the server refuses `GetSetting` on every call; `isUserSubscribed` then always fails, and every message gets the unavailable notice and, in place of the invitation, the unavailable notice again | any message from any user | `user_id = $2` | not executed | Dialog.AsWrittenSettingLocksEveryoneOut | Store.SettingPrefersUser |
| internal/database/backend/queries.sql.go:148 | `ON t.user_id = u.id` and, at line 149, `u.sent = FALSE`: neither column exists, so the server refuses `GetUnsentUsersForTorrent` on every call | one torrent, one user waiting for it through a link row with `sent` FALSE | `ON txu.user_id = u.id` and `txu.sent = FALSE` | not executed | Store.AsWrittenMissesUnsentUser | Store.UnsentUsersExactly |
