/**
 * The SQL backend of internal/database/backend/queries.sql.go: four tables of
 * rows and the statements the controller and the bot use on them. The row
 * shapes follow internal/database/backend/models.go; the settings table has
 * no Go record and takes the columns its query names (name, user_id, value).
 *
 * Statement semantics are stated as functions over sequences of rows, with
 * SQL's three-valued logic where NULL is compared. The class Queries holds
 * the tables and runs the statements on them. A driver failure (lost
 * connection, refused statement) is an outcome given to each method: the
 * statement then changes nothing and the method returns a Driver error.
 *
 * Three statements name columns the tables do not have, or an operator
 * PostgreSQL does not define: `t.user_id` (lines 75 and 148), `u.sent` (line
 * 149) and `user_id == $2` (line 101). The server refuses them on every
 * call; the as-written functions below say so, and the rest of the model
 * uses the evidently intended `txu.user_id`, `txu.sent` and `user_id = $2`.
 * A new torrent_x_user row has `sent` FALSE. Result rows come in table order
 * (joins as nested loops, outer table first), and ORDER BY ties are broken by
 * that order.
 */
module Store {
  import opened Wrappers
  import opened Strconv
  import opened Errors

  /** A point in time (time.Time); only its order matters. */
  type Time = int

  datatype TorrentRow = TorrentRow(
    id: Int64,
    messageId: Option<Int64>,
    torrentLink: string,
    name: Option<string>,
    size: Option<Int64>,
    timeAdded: Time,
    timeStarted: Option<Time>,
    timeFinished: Option<Time>,
    error: Option<string>)

  datatype TorrentXUserRow = TorrentXUserRow(torrentId: Int64, userId: Int64, sent: bool)

  datatype UserRow = UserRow(id: Int64, chatId: Int64, priority: Int32)

  datatype SettingRow = SettingRow(name: string, userId: Option<Int64>, value: string)

  /** The error a statement returns for a driver outcome: none, or the driver's message. */
  function DriverError(fault: Option<string>): (err: Option<Error>)
    ensures err.Some? <==> fault.Some?
    ensures fault.Some? ==> err.value == Driver(fault.value)
  {
    match fault
    case None => None
    case Some(m) => Some(Driver(m))
  }

  // ---------------------------------------------------------------------------
  // SQL three-valued logic
  // ---------------------------------------------------------------------------

  datatype Tri = True | False | Unknown

  /** `a = b`: unknown when either side is NULL. */
  function SqlEq<T(==)>(a: Option<T>, b: Option<T>): (r: Tri)
    ensures r == Unknown <==> a.None? || b.None?
    ensures r == True <==> a.Some? && b.Some? && a.value == b.value
  {
    if a.None? || b.None? then Unknown else if a.value == b.value then True else False
  }

  /** `a IS NULL`: never unknown. */
  function IsNull<T>(a: Option<T>): (r: Tri)
    ensures r != Unknown
    ensures r == True <==> a.None?
  {
    if a.None? then True else False
  }

  function SqlOr(a: Tri, b: Tri): (r: Tri)
    ensures r == True <==> a == True || b == True
    ensures r == False <==> a == False && b == False
  {
    if a == True || b == True then True else if a == False && b == False then False else Unknown
  }

  function SqlAnd(a: Tri, b: Tri): (r: Tri)
    ensures r == True <==> a == True && b == True
    ensures r == False <==> a == False || b == False
  {
    if a == False || b == False then False else if a == True && b == True then True else Unknown
  }

  // ---------------------------------------------------------------------------
  // Generic row helpers
  // ---------------------------------------------------------------------------

  /** The rows that satisfy p, in table order. */
  function Filter<T(!new)>(s: seq<T>, p: T -> bool): (r: seq<T>)
    ensures forall x :: x in r <==> x in s && p(x)
    ensures |r| <= |s|
  {
    if s == [] then [] else (if p(s[0]) then [s[0]] else []) + Filter(s[1..], p)
  }

  /** The first row that satisfies p (a QueryRow without ORDER BY). */
  function FirstWhere<T(!new)>(s: seq<T>, p: T -> bool): (r: Option<T>)
    ensures r.Some? ==> r.value in s && p(r.value)
    ensures r.None? <==> forall x :: x in s ==> !p(x)
    ensures r.Some? ==> exists i :: 0 <= i < |s| && s[i] == r.value && forall j :: 0 <= j < i ==> !p(s[j])
  {
    if s == [] then None
    else if p(s[0]) then Some(s[0])
    else
      var r := FirstWhere(s[1..], p);
      assert r.Some? ==> exists i :: 0 < i < |s| && s[i] == r.value && forall j :: 0 <= j < i ==> !p(s[j]) by {
        if r.Some? {
          var i :| 0 <= i < |s[1..]| && s[1..][i] == r.value && forall j :: 0 <= j < i ==> !p(s[1..][j]);
          assert s[i + 1] == r.value;
          forall j | 0 <= j < i + 1
            ensures !p(s[j])
          {
            if j > 0 {
              assert s[j] == s[1..][j - 1];
            }
          }
        }
      }
      r
  }

  // ---------------------------------------------------------------------------
  // UPDATE statements
  // ---------------------------------------------------------------------------

  /** The SET list of an UPDATE on torrents. */
  datatype Assignment =
    | SetMessageId(messageId: Option<Int64>)
    | SetName(name: Option<string>)
    | SetSize(size: Option<Int64>)
    | SetStatus(started: Option<Time>, finished: Option<Time>, error: Option<string>)

  /** One row after a SET list: only the columns it names change. */
  function Assign(row: TorrentRow, a: Assignment): (r: TorrentRow)
    ensures r.id == row.id && r.torrentLink == row.torrentLink && r.timeAdded == row.timeAdded
    ensures !a.SetMessageId? ==> r.messageId == row.messageId
    ensures !a.SetName? ==> r.name == row.name
    ensures !a.SetSize? ==> r.size == row.size
    ensures !a.SetStatus? ==> r.timeStarted == row.timeStarted && r.timeFinished == row.timeFinished && r.error == row.error
  {
    match a
    case SetMessageId(m) => row.(messageId := m)
    case SetName(n) => row.(name := n)
    case SetSize(s) => row.(size := s)
    case SetStatus(started, finished, error) => row.(timeStarted := started, timeFinished := finished, error := error)
  }

  /** Applying the same SET list twice is applying it once. */
  lemma AssignIdempotent(row: TorrentRow, a: Assignment)
    ensures Assign(Assign(row, a), a) == Assign(row, a)
  {
  }

  /**
   * `UPDATE torrents SET ... WHERE torrent_link = $1`: every row with that
   * link gets the SET list, every other row is left as it was, and no row is
   * added, removed or moved.
   */
  function UpdateWhereLink(rows: seq<TorrentRow>, link: string, a: Assignment): (r: seq<TorrentRow>)
    ensures |r| == |rows|
    ensures forall i :: 0 <= i < |rows| && rows[i].torrentLink == link ==> r[i] == Assign(rows[i], a)
    ensures forall i :: 0 <= i < |rows| && rows[i].torrentLink != link ==> r[i] == rows[i]
  {
    if rows == [] then []
    else
      var last := rows[|rows| - 1];
      UpdateWhereLink(rows[..|rows| - 1], link, a) + [if last.torrentLink == link then Assign(last, a) else last]
  }

  /** Running the same UPDATE twice is running it once. */
  lemma UpdateWhereLinkIdempotent(rows: seq<TorrentRow>, link: string, a: Assignment)
    ensures UpdateWhereLink(UpdateWhereLink(rows, link, a), link, a) == UpdateWhereLink(rows, link, a)
  {
    var once := UpdateWhereLink(rows, link, a);
    var twice := UpdateWhereLink(once, link, a);
    forall i | 0 <= i < |rows|
      ensures twice[i] == once[i]
    {
      if rows[i].torrentLink == link {
        AssignIdempotent(rows[i], a);
      }
    }
  }

  /**
   * The status statement overwrites all three columns: a write that carries
   * only a finish time leaves time_started and error NULL on every row of
   * that link, whatever they held.
   */
  lemma FinishWriteClearsStartAndError(rows: seq<TorrentRow>, link: string, finished: Time, i: nat)
    requires i < |rows| && rows[i].torrentLink == link
    ensures var r := UpdateWhereLink(rows, link, SetStatus(None, Some(finished), None))[i];
      r.timeStarted == None && r.error == None && r.timeFinished == Some(finished)
  {
  }

  /** `UPDATE torrent_x_user SET sent = $3 WHERE torrent_id = $1 AND user_id = $2`. */
  function SetSentWhere(rows: seq<TorrentXUserRow>, torrentId: Int64, userId: Int64, sent: bool): (r: seq<TorrentXUserRow>)
    ensures |r| == |rows|
    ensures forall i :: 0 <= i < |rows| && rows[i].torrentId == torrentId && rows[i].userId == userId ==> r[i] == rows[i].(sent := sent)
    ensures forall i :: 0 <= i < |rows| && !(rows[i].torrentId == torrentId && rows[i].userId == userId) ==> r[i] == rows[i]
  {
    if rows == [] then []
    else
      var last := rows[|rows| - 1];
      SetSentWhere(rows[..|rows| - 1], torrentId, userId, sent)
        + [if last.torrentId == torrentId && last.userId == userId then last.(sent := sent) else last]
  }

  /** `UPDATE users SET priority = $2 WHERE id = $1`. */
  function SetPriorityWhere(rows: seq<UserRow>, id: Int64, priority: Int32): (r: seq<UserRow>)
    ensures |r| == |rows|
    ensures forall i :: 0 <= i < |rows| && rows[i].id == id ==> r[i] == rows[i].(priority := priority)
    ensures forall i :: 0 <= i < |rows| && rows[i].id != id ==> r[i] == rows[i]
  {
    if rows == [] then []
    else
      var last := rows[|rows| - 1];
      SetPriorityWhere(rows[..|rows| - 1], id, priority) + [if last.id == id then last.(priority := priority) else last]
  }

  /** The row AddTorrent inserts: only torrent_link and time_added are supplied, every nullable column is NULL. */
  function NewTorrentRow(id: Int64, link: string, timeAdded: Time): TorrentRow
  {
    TorrentRow(id, None, link, None, None, timeAdded, None, None, None)
  }

  // ---------------------------------------------------------------------------
  // GetFirstUnstartedTorrent
  // ---------------------------------------------------------------------------

  /** A torrent joined with one of its users: the row and the user's priority. */
  datatype Candidate = Candidate(torrent: TorrentRow, priority: Int32)

  /** t is linked through torrent_x_user to a user whose priority is p. */
  predicate Linked(t: TorrentRow, p: Int32, txu: seq<TorrentXUserRow>, users: seq<UserRow>)
  {
    exists x, u :: x in txu && u in users && x.torrentId == t.id && x.userId == u.id && u.priority == p
  }

  /** The join rows of t with the users of one link row x. */
  function UsersOf(t: TorrentRow, x: TorrentXUserRow, users: seq<UserRow>): (r: seq<Candidate>)
    ensures forall c :: c in r <==> c.torrent == t && exists u :: u in users && u.id == x.userId && u.priority == c.priority
  {
    if users == [] then []
    else
      var rest := UsersOf(t, x, users[1..]);
      assert forall u :: u in users <==> u == users[0] || u in users[1..];
      (if users[0].id == x.userId then [Candidate(t, users[0].priority)] else []) + rest
  }

  /** The join rows of one torrent: for each link row of it, for each of that link's users. */
  function JoinOf(t: TorrentRow, txu: seq<TorrentXUserRow>, users: seq<UserRow>): (r: seq<Candidate>)
    ensures forall c :: c in r <==> c.torrent == t && Linked(t, c.priority, txu, users)
  {
    if txu == [] then []
    else
      var here := if txu[0].torrentId == t.id then UsersOf(t, txu[0], users) else [];
      var rest := JoinOf(t, txu[1..], users);
      assert forall x :: x in txu <==> x == txu[0] || x in txu[1..];
      here + rest
  }

  /** `torrents t JOIN torrent_x_user txu ON t.id = txu.torrent_id JOIN users u ON txu.user_id = u.id`. */
  function Join(torrents: seq<TorrentRow>, txu: seq<TorrentXUserRow>, users: seq<UserRow>): (r: seq<Candidate>)
    ensures forall c :: c in r <==> c.torrent in torrents && Linked(c.torrent, c.priority, txu, users)
  {
    if torrents == [] then []
    else
      assert forall t :: t in torrents <==> t == torrents[0] || t in torrents[1..];
      JoinOf(torrents[0], txu, users) + Join(torrents[1..], txu, users)
  }

  /** `ORDER BY time_added ASC, u.priority DESC`: a sorts strictly before b. */
  predicate Before(a: Candidate, b: Candidate)
  {
    a.torrent.timeAdded < b.torrent.timeAdded
    || (a.torrent.timeAdded == b.torrent.timeAdded && a.priority > b.priority)
  }

  /** `LIMIT 1` after the ORDER BY: a candidate no other sorts before; ties go to the earlier join row. */
  function Least(cs: seq<Candidate>): (r: Candidate)
    requires cs != []
    ensures r in cs
    ensures forall c :: c in cs ==> !Before(c, r)
  {
    if |cs| == 1 then cs[0]
    else
      var rest := Least(cs[1..]);
      assert forall c :: c in cs <==> c == cs[0] || c in cs[1..];
      if Before(rest, cs[0]) then rest else cs[0]
  }

  /** The WHERE clause as written, `time_started = NULL`: a comparison with NULL. */
  predicate UnstartedAsWritten(c: Candidate)
  {
    SqlEq(c.torrent.timeStarted, None) == True
  }

  /** The evidently intended WHERE clause, `time_started IS NULL`. */
  predicate Unstarted(c: Candidate)
  {
    IsNull(c.torrent.timeStarted) == True
  }

  /** The rows the ORDER BY and LIMIT 1 pick from, under a given WHERE clause. */
  function SelectFirst(cs: seq<Candidate>): (r: Result<TorrentRow, Error>)
    ensures r.Err? <==> cs == []
    ensures r.Err? ==> r.error == NoRows
    ensures r.Ok? ==> exists c :: c in cs && c.torrent == r.value && forall d :: d in cs ==> !Before(d, c)
  {
    if cs == [] then Err(NoRows) else Ok(Least(cs).torrent)
  }

  /**
   * The server's answers to a statement that names a column its tables lack,
   * or an operator PostgreSQL does not define: the statement is refused
   * before any row is read. The model keeps only that the answer is a driver
   * error; the texts stand in for the server's messages.
   */
  const UndefinedColumn := "column t.user_id does not exist"
  const UndefinedOperator := "operator does not exist: =="

  /**
   * GetFirstUnstartedTorrent as written: its second join condition names
   * `t.user_id`, and torrents has no such column, so the server refuses the
   * statement whatever the tables hold.
   */
  function FirstUnstartedAsWritten(torrents: seq<TorrentRow>, txu: seq<TorrentXUserRow>, users: seq<UserRow>): Result<TorrentRow, Error>
  {
    Err(Driver(UndefinedColumn))
  }

  /** GetFirstUnstartedTorrent with the join repaired but the WHERE clause as written, comparing with NULL. */
  function FirstUnstartedNullCompare(torrents: seq<TorrentRow>, txu: seq<TorrentXUserRow>, users: seq<UserRow>): Result<TorrentRow, Error>
  {
    SelectFirst(Filter(Join(torrents, txu, users), UnstartedAsWritten))
  }

  /** GetFirstUnstartedTorrent with `txu.user_id` and the intended `time_started IS NULL`: the model uses this one. */
  function FirstUnstarted(torrents: seq<TorrentRow>, txu: seq<TorrentXUserRow>, users: seq<UserRow>): Result<TorrentRow, Error>
  {
    SelectFirst(Filter(Join(torrents, txu, users), Unstarted))
  }

  /** `time_started = NULL` is never TRUE, so even with the join repaired the statement returns no row on any store. */
  lemma NullCompareSelectsNothing(torrents: seq<TorrentRow>, txu: seq<TorrentXUserRow>, users: seq<UserRow>)
    ensures FirstUnstartedNullCompare(torrents, txu, users) == Err(NoRows)
  {
  }

  /**
   * A store with one unstarted torrent linked to one user: the statement as
   * written is refused, with only the join repaired it finds nothing, and
   * the intended one returns that torrent.
   */
  lemma AsWrittenMissesPendingTorrent()
    ensures var t := NewTorrentRow(1, "magnet:?xt=urn:btih:c9e15763f722f23e98a29decdfae341b98d53056", 0);
      var txu, users := [TorrentXUserRow(1, 7, false)], [UserRow(7, 70, 0)];
      FirstUnstartedAsWritten([t], txu, users) == Err(Driver(UndefinedColumn))
      && FirstUnstartedNullCompare([t], txu, users) == Err(NoRows) && FirstUnstarted([t], txu, users) == Ok(t)
  {
    var t := NewTorrentRow(1, "magnet:?xt=urn:btih:c9e15763f722f23e98a29decdfae341b98d53056", 0);
    var txu, users := [TorrentXUserRow(1, 7, false)], [UserRow(7, 70, 0)];
    NullCompareSelectsNothing([t], txu, users);
    var c := Candidate(t, 0);
    assert Linked(t, 0, txu, users) by {
      assert txu[0] in txu && users[0] in users;
    }
    var cs := Filter(Join([t], txu, users), Unstarted);
    assert c in cs;
    assert forall d :: d in cs ==> d.torrent == t;
  }

  /**
   * The corrected selection: NoRows exactly when no unstarted torrent is
   * linked to a user; otherwise an unstarted, linked torrent that no other
   * such torrent sorts before.
   */
  lemma FirstUnstartedSpec(torrents: seq<TorrentRow>, txu: seq<TorrentXUserRow>, users: seq<UserRow>)
    ensures var r := FirstUnstarted(torrents, txu, users);
      (r == Err(NoRows) <==> forall t, p :: t in torrents && t.timeStarted.None? ==> !Linked(t, p, txu, users))
      && (r.Ok? ==>
        r.value in torrents && r.value.timeStarted.None?
        && exists p :: (Linked(r.value, p, txu, users)
          && forall t, q :: t in torrents && t.timeStarted.None? && Linked(t, q, txu, users) ==> !Before(Candidate(t, q), Candidate(r.value, p))))
  {
    var cs := Filter(Join(torrents, txu, users), Unstarted);
    var r := FirstUnstarted(torrents, txu, users);
    forall t, q | t in torrents && t.timeStarted.None? && Linked(t, q, txu, users)
      ensures Candidate(t, q) in cs
    {
    }
    if r.Ok? {
      var c :| c in cs && c.torrent == r.value && forall d :: d in cs ==> !Before(d, c);
      assert Linked(r.value, c.priority, txu, users);
    }
  }

  // ---------------------------------------------------------------------------
  // GetSetting, GetTorrent, GetUser
  // ---------------------------------------------------------------------------

  /** `name = $1 AND (user_id = $2 OR user_id IS NULL)` is TRUE for row. */
  predicate SettingMatches(row: SettingRow, name: string, userId: Option<Int64>)
  {
    row.name == name && SqlOr(SqlEq(row.userId, userId), IsNull(row.userId)) == True
  }

  /**
   * GetSetting: `ORDER BY user_id ASC NULLS LAST LIMIT 1`. Every matching row
   * with a user id carries the requested one, so the first such row wins;
   * only when there is none does the global row (user_id NULL) answer.
   */
  function SelectSetting(settings: seq<SettingRow>, name: string, userId: Option<Int64>): (r: Result<string, Error>)
    ensures r.Err? ==> r.error == NoRows
  {
    match FirstWhere(settings, (row: SettingRow) => SettingMatches(row, name, userId) && row.userId.Some?)
    case Some(row) => Ok(row.value)
    case None =>
      match FirstWhere(settings, (row: SettingRow) => SettingMatches(row, name, userId) && row.userId.None?)
      case Some(row) => Ok(row.value)
      case None => Err(NoRows)
  }

  /**
   * GetSetting as written: `user_id == $2` uses `==`, which PostgreSQL does
   * not define, so the server refuses the statement whatever the table holds.
   */
  function SelectSettingAsWritten(settings: seq<SettingRow>, name: string, userId: Option<Int64>): Result<string, Error>
  {
    Err(Driver(UndefinedOperator))
  }

  /**
   * A settings table with a global channel_id: the statement as written is
   * refused, the intended one answers the global value to any user.
   */
  lemma AsWrittenMissesSetting(user: Int64)
    ensures var settings := [SettingRow("channel_id", None, "-1001")];
      SelectSettingAsWritten(settings, "channel_id", Some(user)) == Err(Driver(UndefinedOperator))
      && SelectSetting(settings, "channel_id", Some(user)) == Ok("-1001")
  {
    var settings := [SettingRow("channel_id", None, "-1001")];
    SettingFallsBackToGlobal(settings, "channel_id", user);
    assert settings[0] in settings;
  }

  /**
   * The per-user value wins over the global one: when the user has a row for
   * the name, the answer is the value of the first such row, whatever global
   * rows exist.
   */
  lemma SettingPrefersUser(settings: seq<SettingRow>, name: string, user: Int64)
    requires exists row :: row in settings && row.name == name && row.userId == Some(user)
    ensures exists i :: (0 <= i < |settings| && settings[i].name == name && settings[i].userId == Some(user)
      && SelectSetting(settings, name, Some(user)) == Ok(settings[i].value)
      && forall j :: 0 <= j < i ==> !(settings[j].name == name && settings[j].userId == Some(user)))
  {
    var p := (row: SettingRow) => SettingMatches(row, name, Some(user)) && row.userId.Some?;
    var row :| row in settings && row.name == name && row.userId == Some(user);
    assert p(row);
    var first := FirstWhere(settings, p);
    var i :| 0 <= i < |settings| && settings[i] == first.value && forall j :: 0 <= j < i ==> !p(settings[j]);
    forall j | 0 <= j < i
      ensures !(settings[j].name == name && settings[j].userId == Some(user))
    {
      assert !p(settings[j]);
    }
  }

  /** Without a row of the user's own, the global row for the name answers; without either, NoRows. */
  lemma SettingFallsBackToGlobal(settings: seq<SettingRow>, name: string, user: Int64)
    requires forall row :: row in settings && row.name == name ==> row.userId != Some(user)
    ensures (exists row :: row in settings && row.name == name && row.userId.None?)
      ==> exists row :: row in settings && row.name == name && row.userId.None? && SelectSetting(settings, name, Some(user)) == Ok(row.value)
    ensures (forall row :: row in settings && row.name == name ==> row.userId.Some?)
      ==> SelectSetting(settings, name, Some(user)) == Err(NoRows)
  {
    var p := (row: SettingRow) => SettingMatches(row, name, Some(user)) && row.userId.Some?;
    forall row | row in settings
      ensures !p(row)
    {
    }
    assert FirstWhere(settings, p).None?;
  }

  /** Without a user (user_id NULL as parameter), only global rows can answer: NULL = NULL is not TRUE. */
  lemma SettingWithoutUserIsGlobal(settings: seq<SettingRow>, name: string)
    ensures SelectSetting(settings, name, None).Ok? ==>
      exists row :: row in settings && row.name == name && row.userId.None? && SelectSetting(settings, name, None) == Ok(row.value)
  {
    var p := (row: SettingRow) => SettingMatches(row, name, None) && row.userId.Some?;
    forall row | row in settings
      ensures !p(row)
    {
    }
    assert FirstWhere(settings, p).None?;
  }

  /** GetTorrent: the first row with the link, or NoRows. */
  function SelectTorrent(torrents: seq<TorrentRow>, link: string): (r: Result<TorrentRow, Error>)
    ensures r.Ok? ==> r.value in torrents && r.value.torrentLink == link
    ensures r.Err? <==> forall t :: t in torrents ==> t.torrentLink != link
    ensures r.Err? ==> r.error == NoRows
  {
    match FirstWhere(torrents, (t: TorrentRow) => t.torrentLink == link)
    case Some(t) => Ok(t)
    case None => Err(NoRows)
  }

  /** GetUser: the first row with the id, or NoRows. */
  function SelectUser(users: seq<UserRow>, id: Int64): (r: Result<UserRow, Error>)
    ensures r.Ok? ==> r.value in users && r.value.id == id
    ensures r.Err? <==> forall u :: u in users ==> u.id != id
    ensures r.Err? ==> r.error == NoRows
  {
    match FirstWhere(users, (u: UserRow) => u.id == id)
    case Some(u) => Ok(u)
    case None => Err(NoRows)
  }

  // ---------------------------------------------------------------------------
  // GetUserTorrents, GetUnsentUsersForTorrent
  // ---------------------------------------------------------------------------

  /**
   * The torrents with the given id, in table order. The ensures states
   * membership only; the order, and one entry per matching row, rest on the
   * definition.
   */
  function TorrentsWithId(torrents: seq<TorrentRow>, id: Int64): (r: seq<TorrentRow>)
    ensures forall t :: t in r <==> t in torrents && t.id == id
  {
    Filter(torrents, (t: TorrentRow) => t.id == id)
  }

  /**
   * `torrent_x_user txu JOIN torrents t ON txu.torrent_id = t.id WHERE
   * txu.user_id = $1`: for each of the user's link rows in table order, the
   * torrents it names.
   */
  function UserTorrents(txu: seq<TorrentXUserRow>, torrents: seq<TorrentRow>, userId: Int64): seq<TorrentRow>
  {
    if txu == [] then []
    else
      var last := txu[|txu| - 1];
      UserTorrents(txu[..|txu| - 1], torrents, userId)
        + (if last.userId == userId then TorrentsWithId(torrents, last.torrentId) else [])
  }

  /**
   * GetUserTorrents returns exactly the torrents linked to the user. This
   * states membership only: the order (link rows in table order, then
   * torrents in table order) and the multiplicity (one entry per matching
   * join row) rest on the definition of UserTorrents.
   */
  lemma {:induction false} UserTorrentsExactly(txu: seq<TorrentXUserRow>, torrents: seq<TorrentRow>, userId: Int64)
    ensures forall t :: t in UserTorrents(txu, torrents, userId) <==>
      t in torrents && exists x :: x in txu && x.userId == userId && x.torrentId == t.id
  {
    if txu != [] {
      var front, last := txu[..|txu| - 1], txu[|txu| - 1];
      UserTorrentsExactly(front, torrents, userId);
      assert forall x :: x in txu <==> x in front || x == last by {
        assert txu == front + [last];
      }
    }
  }

  /** The users with the given id, in table order. */
  function UsersWithId(users: seq<UserRow>, id: Int64): (r: seq<UserRow>)
    ensures forall u :: u in r <==> u in users && u.id == id
  {
    Filter(users, (u: UserRow) => u.id == id)
  }

  /** The unsent users of one torrent row: for each of its link rows with sent FALSE, the users it names. */
  function UnsentUsersOf(t: TorrentRow, txu: seq<TorrentXUserRow>, users: seq<UserRow>): seq<UserRow>
  {
    if txu == [] then []
    else
      var last := txu[|txu| - 1];
      UnsentUsersOf(t, txu[..|txu| - 1], users)
        + (if last.torrentId == t.id && !last.sent then UsersWithId(users, last.userId) else [])
  }

  /**
   * `torrents t JOIN torrent_x_user txu ON t.id = txu.torrent_id JOIN users u
   * ON txu.user_id = u.id WHERE t.torrent_link = $1 AND txu.sent = FALSE`.
   */
  function UnsentUsers(torrents: seq<TorrentRow>, txu: seq<TorrentXUserRow>, users: seq<UserRow>, link: string): seq<UserRow>
  {
    if torrents == [] then []
    else
      var last := torrents[|torrents| - 1];
      UnsentUsers(torrents[..|torrents| - 1], txu, users, link)
        + (if last.torrentLink == link then UnsentUsersOf(last, txu, users) else [])
  }

  lemma {:induction false} UnsentUsersOfExactly(t: TorrentRow, txu: seq<TorrentXUserRow>, users: seq<UserRow>)
    ensures forall u :: u in UnsentUsersOf(t, txu, users) <==>
      u in users && exists x :: x in txu && x.torrentId == t.id && !x.sent && x.userId == u.id
  {
    if txu != [] {
      var front, last := txu[..|txu| - 1], txu[|txu| - 1];
      UnsentUsersOfExactly(t, front, users);
      assert forall x :: x in txu <==> x in front || x == last by {
        assert txu == front + [last];
      }
    }
  }

  /**
   * GetUnsentUsersForTorrent returns exactly the users linked to a torrent
   * with the link through an unsent link row. This states membership only:
   * the order (torrents, then link rows, then users, each in table order)
   * and the multiplicity (one entry per matching join row) rest on the
   * definition of UnsentUsers.
   */
  lemma {:induction false} UnsentUsersExactly(torrents: seq<TorrentRow>, txu: seq<TorrentXUserRow>, users: seq<UserRow>, link: string)
    ensures forall u :: u in UnsentUsers(torrents, txu, users, link) <==>
      u in users && exists t, x :: t in torrents && x in txu && t.torrentLink == link && x.torrentId == t.id && !x.sent && x.userId == u.id
  {
    if torrents != [] {
      var front, last := torrents[..|torrents| - 1], torrents[|torrents| - 1];
      UnsentUsersExactly(front, txu, users, link);
      UnsentUsersOfExactly(last, txu, users);
      assert forall t :: t in torrents <==> t in front || t == last by {
        assert torrents == front + [last];
      }
    }
  }

  /**
   * GetUnsentUsersForTorrent as written: its second join condition names
   * `t.user_id` and its WHERE clause `u.sent`, and neither table has that
   * column, so the server refuses the statement whatever the tables hold.
   */
  function UnsentUsersAsWritten(torrents: seq<TorrentRow>, txu: seq<TorrentXUserRow>, users: seq<UserRow>, link: string): Result<seq<UserRow>, Error>
  {
    Err(Driver(UndefinedColumn))
  }

  /**
   * A store where one user still waits for a torrent: the statement as
   * written is refused, the intended one returns that user.
   */
  lemma AsWrittenMissesUnsentUser()
    ensures var link := "magnet:?xt=urn:btih:c9e15763f722f23e98a29decdfae341b98d53056";
      var t, u := NewTorrentRow(1, link, 0), UserRow(7, 70, 0);
      UnsentUsersAsWritten([t], [TorrentXUserRow(1, 7, false)], [u], link) == Err(Driver(UndefinedColumn))
      && UnsentUsers([t], [TorrentXUserRow(1, 7, false)], [u], link) == [u]
  {
    var link := "magnet:?xt=urn:btih:c9e15763f722f23e98a29decdfae341b98d53056";
    var t, u := NewTorrentRow(1, link, 0), UserRow(7, 70, 0);
    var txu := [TorrentXUserRow(1, 7, false)];
    assert [t][..0] == [] && txu[..0] == [];
    assert UsersWithId([u], 7) == [u];
    assert UnsentUsersOf(t, txu, [u]) == [u];
  }

  /**
   * A failure of a multi-row query: the query itself, the scan of the row at
   * a given position, or the final rows.Close / rows.Err.
   */
  datatype QueryFault =
    | NoFault
    | QueryFails(message: string)
    | ScanFails(row: nat, message: string)
    | CloseFails(message: string)

  /** Whether a fault interrupts a query over n result rows. */
  predicate Interrupts(fault: QueryFault, n: nat)
  {
    match fault
    case NoFault => false
    case ScanFails(row, _) => row < n
    case _ => true
  }

  /**
   * The loop shared by GetUserTorrents and GetUnsentUsersForTorrent: scan
   * the result rows one by one, appending each to items; any failure
   * discards what was read and returns the driver's error.
   */
  method CollectRows<T>(rows: seq<T>, fault: QueryFault) returns (r: Result<seq<T>, Error>)
    ensures r.Ok? <==> !Interrupts(fault, |rows|)
    ensures r.Ok? ==> r.value == rows
    ensures r.Err? ==> r.error == Driver(fault.message)
  {
    if fault.QueryFails? {
      return Err(Driver(fault.message));
    }
    var items: seq<T> := [];
    var i := 0;
    while i < |rows|
      invariant 0 <= i <= |rows|
      invariant items == rows[..i]
      invariant fault.ScanFails? ==> i <= fault.row
    {
      if fault.ScanFails? && fault.row == i {
        return Err(Driver(fault.message));
      }
      items := items + [rows[i]];
      i := i + 1;
    }
    if fault.CloseFails? {
      return Err(Driver(fault.message));
    }
    assert items == rows;
    r := Ok(items);
  }

  // ---------------------------------------------------------------------------
  // The tables and the statements
  // ---------------------------------------------------------------------------

  class Queries {
    var torrents: seq<TorrentRow>
    var torrentXUser: seq<TorrentXUserRow>
    var users: seq<UserRow>
    var settings: seq<SettingRow>

    constructor (torrents: seq<TorrentRow>, torrentXUser: seq<TorrentXUserRow>, users: seq<UserRow>, settings: seq<SettingRow>)
      ensures this.torrents == torrents && this.torrentXUser == torrentXUser
      ensures this.users == users && this.settings == settings
    {
      this.torrents := torrents;
      this.torrentXUser := torrentXUser;
      this.users := users;
      this.settings := settings;
    }

    /** AddTorrent: inserts one row with the link and the time added; id is the value the database assigns. */
    method AddTorrent(link: string, timeAdded: Time, id: Int64, fault: Option<string>) returns (err: Option<Error>)
      modifies this`torrents
      ensures err == DriverError(fault)
      ensures fault.Some? ==> torrents == old(torrents)
      ensures fault.None? ==> torrents == old(torrents) + [NewTorrentRow(id, link, timeAdded)]
    {
      if fault.Some? {
        return Some(Driver(fault.value));
      }
      torrents := torrents + [NewTorrentRow(id, link, timeAdded)];
      err := None;
    }

    /** AddTorrentXUser: inserts one link row, not yet sent. */
    method AddTorrentXUser(torrentId: Int64, userId: Int64, fault: Option<string>) returns (err: Option<Error>)
      modifies this`torrentXUser
      ensures err == DriverError(fault)
      ensures fault.Some? ==> torrentXUser == old(torrentXUser)
      ensures fault.None? ==> torrentXUser == old(torrentXUser) + [TorrentXUserRow(torrentId, userId, false)]
    {
      if fault.Some? {
        return Some(Driver(fault.value));
      }
      torrentXUser := torrentXUser + [TorrentXUserRow(torrentId, userId, false)];
      err := None;
    }

    /** AddUser: inserts one user row. */
    method AddUser(id: Int64, chatId: Int64, priority: Int32, fault: Option<string>) returns (err: Option<Error>)
      modifies this`users
      ensures err == DriverError(fault)
      ensures fault.Some? ==> users == old(users)
      ensures fault.None? ==> users == old(users) + [UserRow(id, chatId, priority)]
    {
      if fault.Some? {
        return Some(Driver(fault.value));
      }
      users := users + [UserRow(id, chatId, priority)];
      err := None;
    }

    /** Runs an UPDATE on torrents: the rows with the link get the SET list. */
    method UpdateTorrents(link: string, a: Assignment, fault: Option<string>) returns (err: Option<Error>)
      modifies this`torrents
      ensures err == DriverError(fault)
      ensures fault.Some? ==> torrents == old(torrents)
      ensures fault.None? ==> torrents == UpdateWhereLink(old(torrents), link, a)
    {
      if fault.Some? {
        return Some(Driver(fault.value));
      }
      torrents := UpdateWhereLink(torrents, link, a);
      err := None;
    }

    /** UpdateTorrentMessageID: sets message_id only, on the rows with the link. */
    method UpdateTorrentMessageID(link: string, messageId: Option<Int64>, fault: Option<string>) returns (err: Option<Error>)
      modifies this`torrents
      ensures err == DriverError(fault)
      ensures fault.Some? ==> torrents == old(torrents)
      ensures fault.None? ==> torrents == UpdateWhereLink(old(torrents), link, SetMessageId(messageId))
    {
      err := UpdateTorrents(link, SetMessageId(messageId), fault);
    }

    /** UpdateTorrentName: sets name only, on the rows with the link. */
    method UpdateTorrentName(link: string, name: Option<string>, fault: Option<string>) returns (err: Option<Error>)
      modifies this`torrents
      ensures err == DriverError(fault)
      ensures fault.Some? ==> torrents == old(torrents)
      ensures fault.None? ==> torrents == UpdateWhereLink(old(torrents), link, SetName(name))
    {
      err := UpdateTorrents(link, SetName(name), fault);
    }

    /** UpdateTorrentSize: sets size only, on the rows with the link. */
    method UpdateTorrentSize(link: string, size: Option<Int64>, fault: Option<string>) returns (err: Option<Error>)
      modifies this`torrents
      ensures err == DriverError(fault)
      ensures fault.Some? ==> torrents == old(torrents)
      ensures fault.None? ==> torrents == UpdateWhereLink(old(torrents), link, SetSize(size))
    {
      err := UpdateTorrents(link, SetSize(size), fault);
    }

    /** UpdateTorrentStatus: overwrites time_started, time_finished and error together; a None argument writes NULL. */
    method UpdateTorrentStatus(link: string, started: Option<Time>, finished: Option<Time>, error: Option<string>, fault: Option<string>)
      returns (err: Option<Error>)
      modifies this`torrents
      ensures err == DriverError(fault)
      ensures fault.Some? ==> torrents == old(torrents)
      ensures fault.None? ==> torrents == UpdateWhereLink(old(torrents), link, SetStatus(started, finished, error))
    {
      err := UpdateTorrents(link, SetStatus(started, finished, error), fault);
    }

    /** UpdateTorrentXUser: sets sent only, on the link rows of the (torrent, user) pair. */
    method UpdateTorrentXUser(torrentId: Int64, userId: Int64, sent: bool, fault: Option<string>) returns (err: Option<Error>)
      modifies this`torrentXUser
      ensures err == DriverError(fault)
      ensures fault.Some? ==> torrentXUser == old(torrentXUser)
      ensures fault.None? ==> torrentXUser == SetSentWhere(old(torrentXUser), torrentId, userId, sent)
    {
      if fault.Some? {
        return Some(Driver(fault.value));
      }
      torrentXUser := SetSentWhere(torrentXUser, torrentId, userId, sent);
      err := None;
    }

    /** UpdateUserPriority: sets priority only, on the user with the id. */
    method UpdateUserPriority(id: Int64, priority: Int32, fault: Option<string>) returns (err: Option<Error>)
      modifies this`users
      ensures err == DriverError(fault)
      ensures fault.Some? ==> users == old(users)
      ensures fault.None? ==> users == SetPriorityWhere(old(users), id, priority)
    {
      if fault.Some? {
        return Some(Driver(fault.value));
      }
      users := SetPriorityWhere(users, id, priority);
      err := None;
    }

    /** GetFirstUnstartedTorrent, with the intended `IS NULL` test; NoRows when nothing is pending. */
    method GetFirstUnstartedTorrent(fault: Option<string>) returns (r: Result<TorrentRow, Error>)
      ensures fault.Some? ==> r == Err(Driver(fault.value))
      ensures fault.None? ==> r == FirstUnstarted(torrents, torrentXUser, users)
    {
      if fault.Some? {
        return Err(Driver(fault.value));
      }
      r := FirstUnstarted(torrents, torrentXUser, users);
    }

    /** GetSetting: the user's own value for the name, else the global one, else NoRows. */
    method GetSetting(name: string, userId: Option<Int64>, fault: Option<string>) returns (r: Result<string, Error>)
      ensures fault.Some? ==> r == Err(Driver(fault.value))
      ensures fault.None? ==> r == SelectSetting(settings, name, userId)
    {
      if fault.Some? {
        return Err(Driver(fault.value));
      }
      r := SelectSetting(settings, name, userId);
    }

    /** GetTorrent: a row with the link, or NoRows. */
    method GetTorrent(link: string, fault: Option<string>) returns (r: Result<TorrentRow, Error>)
      ensures fault.Some? ==> r == Err(Driver(fault.value))
      ensures fault.None? ==> r == SelectTorrent(torrents, link)
    {
      if fault.Some? {
        return Err(Driver(fault.value));
      }
      r := SelectTorrent(torrents, link);
    }

    /** GetUser: the user with the id, or NoRows. */
    method GetUser(id: Int64, fault: Option<string>) returns (r: Result<UserRow, Error>)
      ensures fault.Some? ==> r == Err(Driver(fault.value))
      ensures fault.None? ==> r == SelectUser(users, id)
    {
      if fault.Some? {
        return Err(Driver(fault.value));
      }
      r := SelectUser(users, id);
    }

    /** GetUserTorrents: the user's torrents through torrent_x_user, in table order. */
    method GetUserTorrents(userId: Int64, fault: QueryFault) returns (r: Result<seq<TorrentRow>, Error>)
      ensures r.Ok? <==> !Interrupts(fault, |UserTorrents(torrentXUser, torrents, userId)|)
      ensures r.Ok? ==> r.value == UserTorrents(torrentXUser, torrents, userId)
      ensures r.Err? ==> r.error == Driver(fault.message)
    {
      r := CollectRows(UserTorrents(torrentXUser, torrents, userId), fault);
    }

    /** GetUnsentUsersForTorrent: the users still waiting for the torrent with the link. */
    method GetUnsentUsersForTorrent(link: string, fault: QueryFault) returns (r: Result<seq<UserRow>, Error>)
      ensures r.Ok? <==> !Interrupts(fault, |UnsentUsers(torrents, torrentXUser, users, link)|)
      ensures r.Ok? ==> r.value == UnsentUsers(torrents, torrentXUser, users, link)
      ensures r.Err? ==> r.error == Driver(fault.message)
    {
      r := CollectRows(UnsentUsers(torrents, torrentXUser, users, link), fault);
    }
  }
}
