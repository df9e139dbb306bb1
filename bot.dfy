/**
 * The chat dialog (internal/bot/command.go). The bot keeps, per user name,
 * the last command that is still waiting for input (usersLastCommand); a
 * message from a subscribed user is routed by its text and by that entry.
 *
 * Telegram (sends and chat-member lookups), the magnet-URI parser and the
 * clock answer through Outcomes. The database calls go to the SQL store of
 * the Store module the way internal/database/backend/connectingdb.go routes
 * them: GetSetting(userID, key) asks for the user's own value, GetTorrents is
 * GetUserTorrents, AddTorrent inserts a torrents row. A turn returns the
 * replies it sent, in order; a reply that failed to send is still listed.
 */
module Dialog {
  import opened Wrappers
  import opened Strconv
  import opened Errors
  import opened Store
  import Torrents

  const StartCommand := "/start"
  const HelpCommand := "/help"
  const NewTorrentCommand := "/newtorrent"
  const ListTorrentCommand := "/listtorrents"

  const HelpAnswer := "Я могу помочь со скачиванием торрентов!\n\t\nВы можете обращаться ко мне, используя эти команды:\n\n/newtorrent - добавить новый торрент\n/listtorrents - посмотреть список торрентов"
  const StartAnswer := "Добро пожаловать! " + HelpAnswer
  const NewTorrentAnswer := "Хорошо, теперь введите Magnet-ссылку на торрент"
  const AddedTorrentAnswer := "Торрент успешно добавлен"
  const UnknownCommandAnswer := "Неопознанная команда. Что вы хотели сказать?"
  const UnavailableAnswer := "Сервер в данный момент не доступен. Повторите запрос позже"
  const InvalidLinkAnswer := "Неверная Magnet-ссылка. Проверьте и отправьте снова"

  /** notSubscribeAnswerTemplate with the channel link in place of %s. */
  function NotSubscribeAnswer(chatLink: string): (s: string)
    ensures var prefix := "Для доступа к функциям необходимо подписаться на канал ";
      |prefix| + |chatLink| <= |s| && s[..|prefix|] == prefix && s[|prefix|..|prefix| + |chatLink|] == chatLink
  {
    var prefix := "Для доступа к функциям необходимо подписаться на канал ";
    var s := prefix + chatLink + ". Подпишитесь и повторите запрос снова";
    assert s[|prefix|..|prefix| + |chatLink|] == chatLink;
    s
  }

  /** An incoming message: the sender's user name and id, the chat, the text. */
  datatype Message = Message(userName: string, userId: Int64, chatId: Int64, text: string)

  /** A message the bot sends; markdown when the parse mode is "Markdown". */
  datatype Reply = Reply(chatId: Int64, text: string, markdown: bool)

  /** What the world outside the store answers during one turn. */
  datatype Outcomes = Outcomes(
    channelIdFault: Option<string>,            // driver failure of GetSetting(userID, "channel_id")
    member: (Int64, Int64) -> Result<string, string>, // GetChatMember(chat, user): the status, or Telegram's failure
    memberConfigText: string,                  // the %#v rendering of the GetChatMember config
    channelLinkFault: Option<string>,          // driver failure of GetSetting(userID, "channel_link")
    torrentsFault: QueryFault,                 // failure of GetTorrents
    magnetError: string -> Option<string>,     // magneturi.Parse: None when the link parses
    timeAdded: Time,                           // time.Now() when a torrent is added
    newId: Int64,                              // the id the database gives an added torrent
    addFault: Option<string>,                  // driver failure of AddTorrent
    firstSend: Option<string>,                 // Telegram failure of the first message sent in the turn
    secondSend: Option<string>)                // ... and of the second

  /** The tables a turn reads, and the torrents table it may add to. */
  datatype Tables = Tables(torrents: seq<TorrentRow>, torrentXUser: seq<TorrentXUserRow>, settings: seq<SettingRow>)

  /** The state after a turn or a handler: the command map, the replies, the error, the torrents table. */
  datatype Turn = Turn(commands: map<string, string>, replies: seq<Reply>, err: Option<Error>, torrents: seq<TorrentRow>)

  /** usersLastCommand[userName]: a missing entry reads as "". */
  function LastCommand(commands: map<string, string>, userName: string): string
  {
    if userName in commands then commands[userName] else ""
  }

  /** The error of a send: Telegram's failure wrapped with the handler's context. */
  function SendError(context: string, fault: Option<string>): (r: Option<Error>)
    ensures r.Some? <==> fault.Some?
    ensures fault.Some? ==> Is(r.value, Foreign(fault.value)) && r.value.Wrapped? && r.value.context == context
  {
    match fault
    case None => None
    case Some(m) => Some(Wrapped(context, Foreign(m)))
  }

  /** fmt.Errorf(context + ": %w", err) when err is not nil. */
  function WrapIn(context: string, err: Option<Error>): (r: Option<Error>)
    ensures r.Some? <==> err.Some?
    ensures err.Some? ==> Is(r.value, err.value) && Text(r.value) == context + ": " + Text(err.value)
  {
    match err
    case None => None
    case Some(e) => Some(Wrapped(context, e))
  }

  // ---------------------------------------------------------------------------
  // validateTorrentLink and isUserSubscribed
  // ---------------------------------------------------------------------------

  /** validateTorrentLink: nil for a link the parser accepts, else the parser's error wrapped with the quoted link. */
  function ValidateTorrentLink(link: string, magnetError: string -> Option<string>): (r: Option<Error>)
    ensures r.None? <==> magnetError(link).None?
    ensures r.Some? ==> Is(r.value, Foreign(magnetError(link).value))
  {
    match magnetError(link)
    case None => None
    case Some(m) => Some(Wrapped("torrent link " + Quote(link) + " is invalid", Foreign(m)))
  }

  /** The bot and Torrents.New agree on which links are invalid, and report them in the same words. */
  lemma ValidationAgreesWithNew(link: string, magnetError: string -> Option<string>)
    ensures var r, n := ValidateTorrentLink(link, magnetError), Torrents.New(link, magnetError);
      (r.Some? <==> n.1.Some?)
      && (r.Some? ==> Text(r.value) == Torrents.ParseErrorText(n.1.value))
  {
  }

  /** A chat member counts as subscribed unless they left or were kicked. */
  predicate SubscribedStatus(status: string)
  {
    status != "left" && status != "kicked"
  }

  /** GetSetting(userID, key) through the store: the user's own value, else the global one. */
  function Setting(settings: seq<SettingRow>, userId: Int64, key: string, fault: Option<string>): (r: Result<string, Error>)
    ensures fault.Some? ==> r == Err(Driver(fault.value))
    ensures fault.None? ==> r == SelectSetting(settings, key, Some(userId))
  {
    if fault.Some? then Err(Driver(fault.value)) else SelectSetting(settings, key, Some(userId))
  }

  /** isUserSubscribed: the channel_id setting, parsed as a decimal int64, then the member's status in that chat. */
  function Subscription(settings: seq<SettingRow>, userId: Int64, o: Outcomes): Result<bool, Error>
  {
    match Setting(settings, userId, "channel_id", o.channelIdFault)
    case Err(e) => Err(Wrapped("b.db.GetSetting(" + Quote("channel_id") + ")", e))
    case Ok(channelId) =>
      match ParseInt(channelId)
      case Err(ne) => Err(Wrapped("cannot parse channel_id to int64", Num(ne)))
      case Ok(id) =>
        match o.member(id, userId)
        case Err(m) => Err(Wrapped("b.botAPI.GetChatMember(" + o.memberConfigText + ")", Foreign(m)))
        case Ok(status) => Ok(SubscribedStatus(status))
  }

  /**
   * A user is subscribed exactly when the channel_id setting reads, parses
   * as an int64, and the user's status in that chat is neither "left" nor
   * "kicked"; every failure on the way is an error, never a plain false.
   */
  lemma SubscribedExactly(settings: seq<SettingRow>, userId: Int64, o: Outcomes)
    ensures var r := Subscription(settings, userId, o);
      var channel := Setting(settings, userId, "channel_id", o.channelIdFault);
      (r == Ok(true) <==>
        channel.Ok? && ParseInt(channel.value).Ok?
        && o.member(ParseInt(channel.value).value, userId).Ok?
        && SubscribedStatus(o.member(ParseInt(channel.value).value, userId).value))
      && (r.Err? <==>
        channel.Err? || ParseInt(channel.value).Err? || o.member(ParseInt(channel.value).value, userId).Err?)
  {
    var channel := Setting(settings, userId, "channel_id", o.channelIdFault);
    if channel.Ok? {
      var id := ParseInt(channel.value);
      if id.Ok? {
        assert Subscription(settings, userId, o) == match o.member(id.value, userId)
          case Err(m) => Err(Wrapped("b.botAPI.GetChatMember(" + o.memberConfigText + ")", Foreign(m)))
          case Ok(status) => Ok(SubscribedStatus(status));
      }
    }
  }

  /** A channel_id that is not a decimal int64 makes the check fail with the parse error, without asking Telegram. */
  lemma BadChannelIdIsAnError(settings: seq<SettingRow>, userId: Int64, o: Outcomes)
    requires o.channelIdFault.None?
    requires var s := SelectSetting(settings, "channel_id", Some(userId)); s.Ok? && ParseInt(s.value).Err?
    ensures var r := Subscription(settings, userId, o);
      r.Err? && Is(r.error, Num(ParseInt(SelectSetting(settings, "channel_id", Some(userId)).value).error))
  {
  }

  // ---------------------------------------------------------------------------
  // torrentsToString
  // ---------------------------------------------------------------------------

  /** One line of the list: "Name: ", the name (empty when NULL), a line break. */
  function NameLine(t: TorrentRow): string
  {
    "Name: " + (if t.name.Some? then t.name.value else "") + "\n"
  }

  /** The lines of the torrents, in list order. */
  function Listing(rows: seq<TorrentRow>): string
  {
    if rows == [] then "" else Listing(rows[..|rows| - 1]) + NameLine(rows[|rows| - 1])
  }

  lemma {:induction false} ListingAppend(a: seq<TorrentRow>, b: seq<TorrentRow>)
    ensures Listing(a + b) == Listing(a) + Listing(b)
    decreases |b|
  {
    if b == [] {
      assert a + b == a;
    } else {
      var front, last := b[..|b| - 1], b[|b| - 1];
      assert (a + b)[..|a + b| - 1] == a + front;
      assert (a + b)[|a + b| - 1] == last;
      ListingAppend(a, front);
      assert Listing(a + b) == (Listing(a) + Listing(front)) + NameLine(last);
      assert Listing(b) == Listing(front) + NameLine(last);
      ConcatAssoc(Listing(a), Listing(front), NameLine(last));
    }
  }

  /**
   * The listing is one "Name: <name>\n" line per torrent in list order: the
   * line of the torrent at index i sits between the lines of those before it
   * and those after it. An empty list gives "".
   */
  lemma ListingLineAt(rows: seq<TorrentRow>, i: nat)
    requires i < |rows|
    ensures Listing(rows) == Listing(rows[..i]) + NameLine(rows[i]) + Listing(rows[i + 1..])
  {
    var upTo := rows[..i + 1];
    assert rows == upTo + rows[i + 1..];
    ListingAppend(upTo, rows[i + 1..]);
    ListingPrefix(rows, i);
  }

  /** The listing of the first i + 1 torrents extends that of the first i by the line of torrent i. */
  lemma ListingPrefix(rows: seq<TorrentRow>, i: nat)
    requires i < |rows|
    ensures Listing(rows[..i + 1]) == Listing(rows[..i]) + NameLine(rows[i])
  {
    var upTo := rows[..i + 1];
    assert upTo[..|upTo| - 1] == rows[..i];
  }

  /** torrentsToString: the loop appending one line per torrent. */
  method TorrentsToString(rows: seq<TorrentRow>) returns (result: string)
    ensures result == Listing(rows)
    ensures rows == [] ==> result == ""
  {
    result := "";
    var i := 0;
    while i < |rows|
      invariant 0 <= i <= |rows|
      invariant result == Listing(rows[..i])
    {
      assert rows[..i + 1][..i] == rows[..i];
      result := result + NameLine(rows[i]);
      i := i + 1;
    }
    assert rows[..i] == rows;
  }

  // ---------------------------------------------------------------------------
  // The handlers, as values
  // ---------------------------------------------------------------------------

  /** GetTorrents(userID) through the store. */
  function UserTorrentsQuery(tables: Tables, userId: Int64, fault: QueryFault): Result<seq<TorrentRow>, Error>
  {
    var rows := UserTorrents(tables.torrentXUser, tables.torrents, userId);
    if Interrupts(fault, |rows|) then Err(Driver(fault.message)) else Ok(rows)
  }

  /** handleStartCommand: forget the sender's pending command, send the welcome and the help. */
  function StartRun(commands: map<string, string>, tables: Tables, msg: Message, send: Option<string>): Turn
  {
    Turn(commands - {msg.userName}, [Reply(msg.chatId, StartAnswer, false)],
      SendError("cannot send start answer", send), tables.torrents)
  }

  /** handleHelpCommand: forget the sender's pending command, send the help. */
  function HelpRun(commands: map<string, string>, tables: Tables, msg: Message, send: Option<string>): Turn
  {
    Turn(commands - {msg.userName}, [Reply(msg.chatId, HelpAnswer, false)],
      SendError("cannot send help answer", send), tables.torrents)
  }

  /** handleNewTorrentCommand: ask for a link; remember the command only once the question was sent. */
  function NewTorrentRun(commands: map<string, string>, tables: Tables, msg: Message, send: Option<string>): Turn
  {
    Turn(if send.None? then commands[msg.userName := NewTorrentCommand] else commands,
      [Reply(msg.chatId, NewTorrentAnswer, false)],
      SendError("cannot send new torrent answer", send), tables.torrents)
  }

  /** handleListTorrentCommand: forget the sender's pending command, send the listing in Markdown or the unavailable notice. */
  function ListRun(commands: map<string, string>, tables: Tables, msg: Message, o: Outcomes, send: Option<string>): Turn
  {
    var reply := match UserTorrentsQuery(tables, msg.userId, o.torrentsFault)
      case Err(_) => Reply(msg.chatId, UnavailableAnswer, false)
      case Ok(rows) => Reply(msg.chatId, Listing(rows), true);
    Turn(commands - {msg.userName}, [reply], SendError("cannot send list torrent answer", send), tables.torrents)
  }

  /**
   * handleAddingNewTorrent: an invalid link or a failed insert leaves the
   * pending command in place and says so; a stored link clears it. One reply
   * either way.
   */
  function AddingRun(commands: map<string, string>, tables: Tables, msg: Message, o: Outcomes, send: Option<string>): Turn
  {
    var link := msg.text;
    var err := SendError("cannot send answer after adding torrent", send);
    if ValidateTorrentLink(link, o.magnetError).Some? then
      Turn(commands, [Reply(msg.chatId, InvalidLinkAnswer, false)], err, tables.torrents)
    else if o.addFault.Some? then
      Turn(commands, [Reply(msg.chatId, UnavailableAnswer, false)], err, tables.torrents)
    else
      Turn(commands - {msg.userName}, [Reply(msg.chatId, AddedTorrentAnswer, false)], err,
        tables.torrents + [NewTorrentRow(o.newId, link, o.timeAdded)])
  }

  /** The reply to a text that is neither a command nor an awaited link. */
  function UnknownRun(commands: map<string, string>, tables: Tables, msg: Message, send: Option<string>): Turn
  {
    Turn(commands, [Reply(msg.chatId, UnknownCommandAnswer, false)],
      SendError("cannot send unknown command answer", send), tables.torrents)
  }

  /** Where handleMessage sends a subscribed user's text. */
  datatype Route = ToStart | ToHelp | ToNewTorrent | ToList | ToAdding | ToUnknown

  /** The switch of handleMessage: the four commands, else a link when the sender's pending command is /newtorrent. */
  function RouteOf(text: string, lastCommand: string): (r: Route)
    ensures r == ToAdding <==> text !in {StartCommand, HelpCommand, NewTorrentCommand, ListTorrentCommand} && lastCommand == NewTorrentCommand
    ensures r == ToUnknown <==> text !in {StartCommand, HelpCommand, NewTorrentCommand, ListTorrentCommand} && lastCommand != NewTorrentCommand
  {
    if text == StartCommand then ToStart
    else if text == HelpCommand then ToHelp
    else if text == NewTorrentCommand then ToNewTorrent
    else if text == ListTorrentCommand then ToList
    else if lastCommand == NewTorrentCommand then ToAdding
    else ToUnknown
  }

  /** A subscribed user's message: the routed handler, its error wrapped with the handler's call. */
  function DispatchRun(commands: map<string, string>, tables: Tables, msg: Message, o: Outcomes): Turn
  {
    var call := Quote(msg.userName) + ", " + FormatInt(msg.chatId);
    var send := o.firstSend;
    match RouteOf(msg.text, LastCommand(commands, msg.userName))
    case ToStart =>
      var t := StartRun(commands, tables, msg, send);
      t.(err := WrapIn("b.handleStartCommand(" + call + ")", t.err))
    case ToHelp =>
      var t := HelpRun(commands, tables, msg, send);
      t.(err := WrapIn("b.handleHelpCommand(" + call + ")", t.err))
    case ToNewTorrent =>
      var t := NewTorrentRun(commands, tables, msg, send);
      t.(err := WrapIn("b.handleNewTorrentCommand(" + call + ")", t.err))
    case ToList =>
      var t := ListRun(commands, tables, msg, o, send);
      t.(err := WrapIn("b.handleListTorrentCommand(" + call + ")", t.err))
    case ToAdding =>
      var t := AddingRun(commands, tables, msg, o, send);
      t.(err := WrapIn("b.handleAddingNewTorrent(" + call + ", " + Quote(msg.text) + ")", t.err))
    case ToUnknown => UnknownRun(commands, tables, msg, send)
  }

  /**
   * An unsubscribed user's message (subscription is false or the check
   * failed): after the unavailable notice for a failed check, the
   * invitation to subscribe, or the unavailable notice when the channel
   * link cannot be read. The map and the store are left as they were.
   */
  function NotSubscribedRun(commands: map<string, string>, tables: Tables, msg: Message, o: Outcomes, checkFailed: bool): Turn
  {
    var notice := if checkFailed then [Reply(msg.chatId, UnavailableAnswer, false)] else [];
    var send := if checkFailed then o.secondSend else o.firstSend;
    if checkFailed && o.firstSend.Some? then
      Turn(commands, notice, SendError("cannot send bot unavailable message", o.firstSend), tables.torrents)
    else
      var text := match Setting(tables.settings, msg.userId, "channel_link", o.channelLinkFault)
        case Err(_) => UnavailableAnswer
        case Ok(chatLink) => NotSubscribeAnswer(chatLink);
      Turn(commands, notice + [Reply(msg.chatId, text, false)], SendError("cannot send not subscribe answer", send), tables.torrents)
  }

  /** handleMessage: the subscription gate, then the dispatch. */
  function HandleMessageRun(commands: map<string, string>, tables: Tables, msg: Message, o: Outcomes): Turn
  {
    var sub := Subscription(tables.settings, msg.userId, o);
    if sub == Ok(true) then DispatchRun(commands, tables, msg, o)
    else NotSubscribedRun(commands, tables, msg, o, sub.Err?)
  }

  /** The two sides of the subscription gate. */
  lemma HandleMessageBranches(commands: map<string, string>, tables: Tables, msg: Message, o: Outcomes)
    ensures var sub := Subscription(tables.settings, msg.userId, o);
      (sub == Ok(true) ==> HandleMessageRun(commands, tables, msg, o) == DispatchRun(commands, tables, msg, o))
      && (sub != Ok(true) ==> HandleMessageRun(commands, tables, msg, o) == NotSubscribedRun(commands, tables, msg, o, sub.Err?))
  {
  }

  // ---------------------------------------------------------------------------
  // Properties of a turn
  // ---------------------------------------------------------------------------

  /** The three ways a turn can leave the map: as it was, without the sender's entry, or with "/newtorrent" for the sender. */
  predicate SendersEntryOnly(before: map<string, string>, after: map<string, string>, userName: string)
  {
    after == before || after == before - {userName} || after == before[userName := NewTorrentCommand]
  }

  lemma DispatchCommands(commands: map<string, string>, tables: Tables, msg: Message, o: Outcomes)
    ensures SendersEntryOnly(commands, DispatchRun(commands, tables, msg, o).commands, msg.userName)
  {
    var route := RouteOf(msg.text, LastCommand(commands, msg.userName));
    var send := o.firstSend;
    if route == ToList {
      assert DispatchRun(commands, tables, msg, o).commands == ListRun(commands, tables, msg, o, send).commands;
    } else if route == ToAdding {
      assert DispatchRun(commands, tables, msg, o).commands == AddingRun(commands, tables, msg, o, send).commands;
    }
  }

  /** Only the sender's entry is ever read or changed: every other user's entry is kept as it was. */
  lemma OnlySendersEntryChanges(commands: map<string, string>, tables: Tables, msg: Message, o: Outcomes, other: string)
    requires other != msg.userName
    ensures var t := HandleMessageRun(commands, tables, msg, o);
      (other in t.commands <==> other in commands)
      && (other in commands ==> t.commands[other] == commands[other])
  {
    var t := HandleMessageRun(commands, tables, msg, o);
    HandleMessageBranches(commands, tables, msg, o);
    if Subscription(tables.settings, msg.userId, o) == Ok(true) {
      DispatchCommands(commands, tables, msg, o);
    }
    OthersKept(commands, t.commands, msg.userName, other);
  }

  lemma OthersKept(before: map<string, string>, after: map<string, string>, userName: string, other: string)
    requires SendersEntryOnly(before, after, userName) && other != userName
    ensures (other in after <==> other in before) && (other in before ==> after[other] == before[other])
  {
  }

  /** An unsubscribed sender (or a failed check) reaches no handler: the map and the store stay as they were. */
  lemma UnsubscribedChangesNothing(commands: map<string, string>, tables: Tables, msg: Message, o: Outcomes)
    requires Subscription(tables.settings, msg.userId, o) != Ok(true)
    ensures var t, link := HandleMessageRun(commands, tables, msg, o), Setting(tables.settings, msg.userId, "channel_link", o.channelLinkFault);
      t.commands == commands && t.torrents == tables.torrents
      && 1 <= |t.replies| <= 2
      && forall r :: r in t.replies ==>
           r.chatId == msg.chatId && (r.text == UnavailableAnswer || (link.Ok? && r.text == NotSubscribeAnswer(link.value)))
  {
    HandleMessageBranches(commands, tables, msg, o);
    NotSubscribedReplies(commands, tables, msg, o, Subscription(tables.settings, msg.userId, o).Err?);
  }

  /**
   * With GetSetting as written the server refuses every lookup, so no
   * message reaches a handler: the check fails, the sender gets the
   * unavailable notice and, when that send succeeds, the unavailable notice
   * again in place of the invitation; the map and the store stay as they
   * were.
   */
  lemma AsWrittenSettingLocksEveryoneOut(commands: map<string, string>, tables: Tables, msg: Message, o: Outcomes)
    ensures var refused := o.(channelIdFault := Some(UndefinedOperator), channelLinkFault := Some(UndefinedOperator));
      var t, u := HandleMessageRun(commands, tables, msg, refused), Reply(msg.chatId, UnavailableAnswer, false);
      Subscription(tables.settings, msg.userId, refused).Err?
      && t.commands == commands && t.torrents == tables.torrents
      && t.replies == (if o.firstSend.Some? then [u] else [u, u])
      && t.err.Some? == (o.firstSend.Some? || o.secondSend.Some?)
  {
    var refused := o.(channelIdFault := Some(UndefinedOperator), channelLinkFault := Some(UndefinedOperator));
    RefusedSettingsLockOut(commands, tables, msg, refused);
  }

  /** Whenever both settings lookups fail, the turn is the failed-check branch with the unavailable notice twice. */
  lemma RefusedSettingsLockOut(commands: map<string, string>, tables: Tables, msg: Message, o: Outcomes)
    requires o.channelIdFault.Some? && o.channelLinkFault.Some?
    ensures var t, u := HandleMessageRun(commands, tables, msg, o), Reply(msg.chatId, UnavailableAnswer, false);
      Subscription(tables.settings, msg.userId, o).Err?
      && t.commands == commands && t.torrents == tables.torrents
      && t.replies == (if o.firstSend.Some? then [u] else [u, u])
      && t.err.Some? == (o.firstSend.Some? || o.secondSend.Some?)
  {
    assert Subscription(tables.settings, msg.userId, o).Err?;
    HandleMessageBranches(commands, tables, msg, o);
    UnavailableTwice(commands, tables, msg, o);
  }

  lemma UnavailableTwice(commands: map<string, string>, tables: Tables, msg: Message, o: Outcomes)
    requires o.channelLinkFault.Some?
    ensures var t, u := NotSubscribedRun(commands, tables, msg, o, true), Reply(msg.chatId, UnavailableAnswer, false);
      t.commands == commands && t.torrents == tables.torrents
      && t.replies == (if o.firstSend.Some? then [u] else [u, u])
      && t.err.Some? == (o.firstSend.Some? || o.secondSend.Some?)
  {
    assert Setting(tables.settings, msg.userId, "channel_link", o.channelLinkFault).Err?;
  }

  lemma NotSubscribedReplies(commands: map<string, string>, tables: Tables, msg: Message, o: Outcomes, checkFailed: bool)
    ensures var t, link := NotSubscribedRun(commands, tables, msg, o, checkFailed), Setting(tables.settings, msg.userId, "channel_link", o.channelLinkFault);
      t.commands == commands && t.torrents == tables.torrents
      && 1 <= |t.replies| <= 2
      && forall r :: r in t.replies ==>
           r.chatId == msg.chatId && (r.text == UnavailableAnswer || (link.Ok? && r.text == NotSubscribeAnswer(link.value)))
  {
    var t, link := NotSubscribedRun(commands, tables, msg, o, checkFailed), Setting(tables.settings, msg.userId, "channel_link", o.channelLinkFault);
    var unavailable := Reply(msg.chatId, UnavailableAnswer, false);
    if !(checkFailed && o.firstSend.Some?) {
      var text := if link.Err? then UnavailableAnswer else NotSubscribeAnswer(link.value);
      var notice := if checkFailed then [unavailable] else [];
      assert t.replies == notice + [Reply(msg.chatId, text, false)];
    }
  }

  /**
   * When the check itself fails and the notice goes out, the user gets two
   * messages: the unavailable notice, then the subscription message, since
   * the failed check leaves subscribed false.
   */
  lemma FailedCheckSendsTwoMessages(commands: map<string, string>, tables: Tables, msg: Message, o: Outcomes)
    requires Subscription(tables.settings, msg.userId, o).Err? && o.firstSend.None?
    ensures var t := HandleMessageRun(commands, tables, msg, o);
      |t.replies| == 2 && t.replies[0] == Reply(msg.chatId, UnavailableAnswer, false)
  {
  }

  /** /start, /help and /listtorrents from a subscribed sender delete the sender's entry, whether or not the reply was sent. */
  lemma ResettingCommandsForget(commands: map<string, string>, tables: Tables, msg: Message, o: Outcomes)
    requires Subscription(tables.settings, msg.userId, o) == Ok(true)
    requires msg.text in {StartCommand, HelpCommand, ListTorrentCommand}
    ensures var t := HandleMessageRun(commands, tables, msg, o);
      msg.userName !in t.commands && t.commands == commands - {msg.userName}
      && t.torrents == tables.torrents && |t.replies| == 1
  {
  }

  /** /newtorrent records "/newtorrent" for the sender exactly when its reply was sent; otherwise the map is unchanged. */
  lemma NewTorrentRecordedIffSent(commands: map<string, string>, tables: Tables, msg: Message, o: Outcomes)
    requires Subscription(tables.settings, msg.userId, o) == Ok(true)
    requires msg.text == NewTorrentCommand
    ensures var t := HandleMessageRun(commands, tables, msg, o);
      (LastCommand(t.commands, msg.userName) == NewTorrentCommand <==> o.firstSend.None? || LastCommand(commands, msg.userName) == NewTorrentCommand)
      && (o.firstSend.None? ==> t.commands == commands[msg.userName := NewTorrentCommand])
      && (o.firstSend.Some? ==> t.commands == commands && t.err.Some?)
  {
  }

  /**
   * Text that is not a command is taken as a link exactly when the sender's
   * entry is "/newtorrent"; otherwise the unknown-command reply goes out and
   * neither the map nor the store changes.
   */
  lemma PlainTextRouting(commands: map<string, string>, tables: Tables, msg: Message, o: Outcomes)
    requires Subscription(tables.settings, msg.userId, o) == Ok(true)
    requires msg.text !in {StartCommand, HelpCommand, NewTorrentCommand, ListTorrentCommand}
    ensures var t := HandleMessageRun(commands, tables, msg, o);
      (LastCommand(commands, msg.userName) == NewTorrentCommand ==>
        t == AddingRun(commands, tables, msg, o, o.firstSend).(err := t.err))
      && (LastCommand(commands, msg.userName) != NewTorrentCommand ==>
        t.commands == commands && t.torrents == tables.torrents
        && t.replies == [Reply(msg.chatId, UnknownCommandAnswer, false)])
  {
  }

  /**
   * Adding deletes the sender's entry exactly when the link validates and the
   * insert succeeds, and only then does the torrents table grow, by one row
   * for the link; an invalid link or a failed insert keeps the entry so the
   * user can send another link.
   */
  lemma AddingClearsOnlyOnSuccess(commands: map<string, string>, tables: Tables, msg: Message, o: Outcomes)
    requires Subscription(tables.settings, msg.userId, o) == Ok(true)
    requires msg.text !in {StartCommand, HelpCommand, NewTorrentCommand, ListTorrentCommand}
    requires LastCommand(commands, msg.userName) == NewTorrentCommand
    ensures var t, stored := HandleMessageRun(commands, tables, msg, o), o.magnetError(msg.text).None? && o.addFault.None?;
      (msg.userName !in t.commands <==> stored)
      && (!stored ==> t.commands == commands && t.torrents == tables.torrents)
      && (stored ==>
            t.commands == commands - {msg.userName} && t.torrents == tables.torrents + [NewTorrentRow(o.newId, msg.text, o.timeAdded)])
  {
    HandleMessageBranches(commands, tables, msg, o);
    assert RouteOf(msg.text, LastCommand(commands, msg.userName)) == ToAdding;
    var a := AddingRun(commands, tables, msg, o, o.firstSend);
    assert HandleMessageRun(commands, tables, msg, o).commands == a.commands;
    assert HandleMessageRun(commands, tables, msg, o).torrents == a.torrents;
  }

  /**
   * The bot inserts the torrent but links it to nobody: a torrent added
   * under a fresh id appears in no user's /listtorrents listing, the
   * sender's included.
   */
  lemma AddedTorrentIsNotListed(commands: map<string, string>, tables: Tables, msg: Message, o: Outcomes)
    requires forall x :: x in tables.torrentXUser ==> x.torrentId != o.newId
    ensures var t := HandleMessageRun(commands, tables, msg, o);
      forall u :: UserTorrents(tables.torrentXUser, t.torrents, u) == UserTorrents(tables.torrentXUser, tables.torrents, u)
  {
    var t := HandleMessageRun(commands, tables, msg, o);
    TurnAddsAtMostTheNewRow(commands, tables, msg, o);
    forall u
      ensures UserTorrents(tables.torrentXUser, t.torrents, u) == UserTorrents(tables.torrentXUser, tables.torrents, u)
    {
      if t.torrents != tables.torrents {
        NewRowIsUnlinked(tables.torrentXUser, tables.torrents, NewTorrentRow(o.newId, msg.text, o.timeAdded), u);
      }
    }
  }

  /** A turn leaves the torrents table as it was or appends the one row for the sent link. */
  lemma TurnAddsAtMostTheNewRow(commands: map<string, string>, tables: Tables, msg: Message, o: Outcomes)
    ensures var t := HandleMessageRun(commands, tables, msg, o);
      t.torrents == tables.torrents || t.torrents == tables.torrents + [NewTorrentRow(o.newId, msg.text, o.timeAdded)]
  {
    HandleMessageBranches(commands, tables, msg, o);
    var sub := Subscription(tables.settings, msg.userId, o);
    if sub == Ok(true) {
      var t := DispatchRun(commands, tables, msg, o);
      if RouteOf(msg.text, LastCommand(commands, msg.userName)) == ToAdding {
        assert t.torrents == AddingRun(commands, tables, msg, o, o.firstSend).torrents;
      } else {
        assert t.torrents == tables.torrents;
      }
    } else {
      NotSubscribedReplies(commands, tables, msg, o, sub.Err?);
    }
  }

  /** A row whose id no link row names adds nothing to any user's torrents. */
  lemma {:induction false} NewRowIsUnlinked(txu: seq<TorrentXUserRow>, torrents: seq<TorrentRow>, row: TorrentRow, userId: Int64)
    requires forall x :: x in txu ==> x.torrentId != row.id
    ensures UserTorrents(txu, torrents + [row], userId) == UserTorrents(txu, torrents, userId)
  {
    if txu != [] {
      var front, last := txu[..|txu| - 1], txu[|txu| - 1];
      assert forall x :: x in front ==> x in txu;
      NewRowIsUnlinked(front, torrents, row, userId);
      TorrentsWithIdSkips(torrents, row, last.torrentId);
    }
  }

  lemma TorrentsWithIdSkips(torrents: seq<TorrentRow>, row: TorrentRow, id: Int64)
    requires row.id != id
    ensures TorrentsWithId(torrents + [row], id) == TorrentsWithId(torrents, id)
  {
    FilterSkipsLast(torrents, row, (t: TorrentRow) => t.id == id);
  }

  lemma {:induction false} FilterSkipsLast<T(!new)>(s: seq<T>, x: T, p: T -> bool)
    requires !p(x)
    ensures Filter(s + [x], p) == Filter(s, p)
  {
    if s == [] {
      assert Filter([x], p) == Filter([x][1..], p);
    } else {
      assert (s + [x])[1..] == s[1..] + [x];
      FilterSkipsLast(s[1..], x, p);
    }
  }

  // ---------------------------------------------------------------------------
  // The bot
  // ---------------------------------------------------------------------------

  /** Bot: the pending command per user name and the database it talks to. */
  class Bot {
    var usersLastCommand: map<string, string>
    const db: Queries

    /** New: no pending commands. */
    constructor (db: Queries)
      ensures usersLastCommand == map[] && this.db == db
    {
      usersLastCommand := map[];
      this.db := db;
    }

    /** The tables as the bot sees them now. */
    function Snapshot(): (tables: Tables)
      reads db
      ensures tables.torrents == db.torrents && tables.torrentXUser == db.torrentXUser && tables.settings == db.settings
    {
      Tables(db.torrents, db.torrentXUser, db.settings)
    }

    /** isUserSubscribed: reads the channel id setting and asks Telegram; changes nothing. */
    method IsUserSubscribed(userId: Int64, o: Outcomes) returns (subscribed: bool, err: Option<Error>)
      ensures (if err.Some? then Err(err.value) else Ok(subscribed)) == Subscription(db.settings, userId, o)
      ensures err.Some? ==> !subscribed
    {
      var channelId := db.GetSetting("channel_id", Some(userId), o.channelIdFault);
      assert channelId == Setting(db.settings, userId, "channel_id", o.channelIdFault);
      if channelId.Err? {
        return false, Some(Wrapped("b.db.GetSetting(" + Quote("channel_id") + ")", channelId.error));
      }
      var id := ParseInt(channelId.value);
      if id.Err? {
        return false, Some(Wrapped("cannot parse channel_id to int64", Num(id.error)));
      }
      var member := o.member(id.value, userId);
      if member.Err? {
        return false, Some(Wrapped("b.botAPI.GetChatMember(" + o.memberConfigText + ")", Foreign(member.error)));
      }
      subscribed, err := member.value != "left" && member.value != "kicked", None;
    }

    method HandleStartCommand(msg: Message, send: Option<string>) returns (replies: seq<Reply>, err: Option<Error>)
      modifies this`usersLastCommand
      ensures Turn(usersLastCommand, replies, err, db.torrents) == StartRun(old(usersLastCommand), Snapshot(), msg, send)
    {
      usersLastCommand := usersLastCommand - {msg.userName};
      replies := [Reply(msg.chatId, StartAnswer, false)];
      err := SendError("cannot send start answer", send);
    }

    method HandleHelpCommand(msg: Message, send: Option<string>) returns (replies: seq<Reply>, err: Option<Error>)
      modifies this`usersLastCommand
      ensures Turn(usersLastCommand, replies, err, db.torrents) == HelpRun(old(usersLastCommand), Snapshot(), msg, send)
    {
      usersLastCommand := usersLastCommand - {msg.userName};
      replies := [Reply(msg.chatId, HelpAnswer, false)];
      err := SendError("cannot send help answer", send);
    }

    method HandleNewTorrentCommand(msg: Message, send: Option<string>) returns (replies: seq<Reply>, err: Option<Error>)
      modifies this`usersLastCommand
      ensures Turn(usersLastCommand, replies, err, db.torrents) == NewTorrentRun(old(usersLastCommand), Snapshot(), msg, send)
    {
      replies := [Reply(msg.chatId, NewTorrentAnswer, false)];
      if send.Some? {
        return replies, SendError("cannot send new torrent answer", send);
      }
      usersLastCommand := usersLastCommand[msg.userName := NewTorrentCommand];
      err := None;
    }

    method HandleListTorrentCommand(msg: Message, o: Outcomes, send: Option<string>) returns (replies: seq<Reply>, err: Option<Error>)
      modifies this`usersLastCommand
      ensures Turn(usersLastCommand, replies, err, db.torrents) == ListRun(old(usersLastCommand), Snapshot(), msg, o, send)
    {
      usersLastCommand := usersLastCommand - {msg.userName};
      var torrents := db.GetUserTorrents(msg.userId, o.torrentsFault);
      var reply := Reply(msg.chatId, "", false);
      if torrents.Err? {
        reply := reply.(text := UnavailableAnswer);
      } else {
        var text := TorrentsToString(torrents.value);
        reply := reply.(text := text, markdown := true);
      }
      replies := [reply];
      err := SendError("cannot send list torrent answer", send);
    }

    method HandleAddingNewTorrent(msg: Message, o: Outcomes, send: Option<string>) returns (replies: seq<Reply>, err: Option<Error>)
      modifies this`usersLastCommand, db`torrents
      ensures Turn(usersLastCommand, replies, err, db.torrents) ==
        AddingRun(old(usersLastCommand), Tables(old(db.torrents), db.torrentXUser, db.settings), msg, o, send)
    {
      var reply := Reply(msg.chatId, "", false);
      if ValidateTorrentLink(msg.text, o.magnetError).Some? {
        reply := reply.(text := InvalidLinkAnswer);
      } else {
        var addErr := db.AddTorrent(msg.text, o.timeAdded, o.newId, o.addFault);
        if addErr.Some? {
          reply := reply.(text := UnavailableAnswer);
        } else {
          usersLastCommand := usersLastCommand - {msg.userName};
          reply := reply.(text := AddedTorrentAnswer);
        }
      }
      replies := [reply];
      err := SendError("cannot send answer after adding torrent", send);
    }

    /** handleMessage: the whole turn is HandleMessageRun's for the map and the tables as they were. */
    method HandleMessage(msg: Message, o: Outcomes) returns (replies: seq<Reply>, err: Option<Error>)
      modifies this`usersLastCommand, db`torrents
      ensures Turn(usersLastCommand, replies, err, db.torrents) ==
        HandleMessageRun(old(usersLastCommand), Tables(old(db.torrents), db.torrentXUser, db.settings), msg, o)
    {
      ghost var tables := Snapshot();
      HandleMessageBranches(usersLastCommand, tables, msg, o);
      var subscribed, subErr := IsUserSubscribed(msg.userId, o);
      var notice := [];
      if subErr.Some? {
        notice := [Reply(msg.chatId, UnavailableAnswer, false)];
        if o.firstSend.Some? {
          return notice, SendError("cannot send bot unavailable message", o.firstSend);
        }
      }
      if !subscribed {
        var send := if subErr.Some? then o.secondSend else o.firstSend;
        var chatLink := db.GetSetting("channel_link", Some(msg.userId), o.channelLinkFault);
        var text := if chatLink.Err? then UnavailableAnswer else NotSubscribeAnswer(chatLink.value);
        replies := notice + [Reply(msg.chatId, text, false)];
        return replies, SendError("cannot send not subscribe answer", send);
      }
      var call := Quote(msg.userName) + ", " + FormatInt(msg.chatId);
      var route := RouteOf(msg.text, LastCommand(usersLastCommand, msg.userName));
      match route
      case ToStart =>
        replies, err := HandleStartCommand(msg, o.firstSend);
        err := WrapIn("b.handleStartCommand(" + call + ")", err);
      case ToHelp =>
        replies, err := HandleHelpCommand(msg, o.firstSend);
        err := WrapIn("b.handleHelpCommand(" + call + ")", err);
      case ToNewTorrent =>
        replies, err := HandleNewTorrentCommand(msg, o.firstSend);
        err := WrapIn("b.handleNewTorrentCommand(" + call + ")", err);
      case ToList =>
        replies, err := HandleListTorrentCommand(msg, o, o.firstSend);
        err := WrapIn("b.handleListTorrentCommand(" + call + ")", err);
      case ToAdding =>
        replies, err := HandleAddingNewTorrent(msg, o, o.firstSend);
        err := WrapIn("b.handleAddingNewTorrent(" + call + ", " + Quote(msg.text) + ")", err);
      case ToUnknown =>
        replies := [Reply(msg.chatId, UnknownCommandAnswer, false)];
        err := SendError("cannot send unknown command answer", o.firstSend);
    }
  }
}
