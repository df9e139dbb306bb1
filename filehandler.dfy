/**
 * The fetch-and-relay controller (internal/filehandler/filehandler.go): one
 * pass of `handle` reads the first unstarted torrent, resolves it, checks its
 * size, records name, size and start time, downloads it, uploads the file,
 * records the message id and the finish time, and turns any failure after
 * the link is known into one error-status write.
 *
 * The torrent client, the uploader and the clock are outside the model: what
 * they return in one pass is given as Outcomes, together with the driver
 * failures of each repository call. The repository is the SQL store of the
 * Store module. Each pass also returns the calls it made, in order, so that
 * ordering can be stated; an Update call records whether the write took
 * effect.
 *
 * Each Go function is specified by a function on values (…Run) that gives
 * its calls and its error; the methods of FileHandler perform the calls on
 * the store and are proved to match. The properties of a pass are lemmas
 * about HandleRun.
 */
module Controller {
  import opened Wrappers
  import opened Strconv
  import opened Errors
  import opened Store

  /** torrentFile.Info(): BestName() and Length. */
  datatype Info = Info(bestName: string, length: Int64)

  /**
   * Readings of time.Now(): the start, finish and failure times written to
   * the store, and the String() renderings quoted in the two status-write
   * error messages.
   */
  datatype Clock = Clock(started: Time, finished: Time, failed: Time, startedText: string, finishedText: string)

  /** The driver failure, if any, of each repository write of a pass. */
  datatype Faults = Faults(
    name: Option<string>,
    size: Option<string>,
    start: Option<string>,
    messageId: Option<string>,
    finish: Option<string>,
    errorStatus: Option<string>)

  /** Everything a pass depends on besides the store. */
  datatype Outcomes = Outcomes(
    read: Option<string>,                 // driver failure of GetFirstUnstartedTorrent
    resolved: Result<Info, string>,       // loader.Torrent
    loaded: Option<string>,               // loader.LoadTorrent: None when the download completed
    uploaded: Result<Int64, string>,      // uploader.Upload: the message id
    faults: Faults,
    clock: Clock)

  /** The FileHandler's settings used by a pass. */
  datatype Config = Config(loadDir: string, targetDomain: string, maxTorrentSize: Int64)

  /** A call a pass makes on a collaborator. */
  datatype Call =
    | ReadFirstUnstarted                                    // repository.GetFirstUnstartedTorrent
    | ResolveTorrent(link: string)                          // loader.Torrent
    | Update(link: string, assignment: Assignment, ok: bool) // a repository Update*; ok when it took effect
    | Download(link: string)                                // loader.LoadTorrent
    | Upload(path: string, target: string)                  // uploader.Upload

  /** The calls a step made and the error it returned. */
  datatype Stage = Stage(calls: seq<Call>, err: Option<Error>)

  /**
   * path.Join of the download directory and a file name, as the two joined
   * by one separator; an empty part is dropped. path.Clean's rewriting of
   * "..", "." and repeated separators is not modelled.
   */
  function JoinPath(dir: string, name: string): (p: string)
    ensures dir != "" && name != "" ==> p == dir + "/" + name
    ensures dir == "" ==> p == name
    ensures name == "" ==> p == dir
  {
    if dir == "" then name else if name == "" then dir else dir + "/" + name
  }

  // ---------------------------------------------------------------------------
  // Effect of the calls on the torrents table
  // ---------------------------------------------------------------------------

  /** The torrents table after one call: an Update that took effect runs its statement. */
  function Apply(rows: seq<TorrentRow>, c: Call): seq<TorrentRow>
  {
    if c.Update? && c.ok then UpdateWhereLink(rows, c.link, c.assignment) else rows
  }

  /** The torrents table after the calls, in order. */
  function Effect(rows: seq<TorrentRow>, calls: seq<Call>): seq<TorrentRow>
  {
    if calls == [] then rows else Apply(Effect(rows, calls[..|calls| - 1]), calls[|calls| - 1])
  }

  lemma EffectSnoc(rows: seq<TorrentRow>, calls: seq<Call>, c: Call)
    ensures Effect(rows, calls + [c]) == Apply(Effect(rows, calls), c)
  {
    assert (calls + [c])[..|calls|] == calls;
  }

  lemma {:induction false} EffectAppend(rows: seq<TorrentRow>, a: seq<Call>, b: seq<Call>)
    ensures Effect(rows, a + b) == Effect(Effect(rows, a), b)
    decreases |b|
  {
    if b == [] {
      assert a + b == a;
    } else {
      var front, last := b[..|b| - 1], b[|b| - 1];
      assert a + b == (a + front) + [last];
      assert b == front + [last];
      EffectSnoc(rows, a + front, last);
      EffectSnoc(Effect(rows, a), front, last);
      EffectAppend(rows, a, front);
    }
  }

  /** One row after one call. */
  function ApplyToRow(row: TorrentRow, c: Call): TorrentRow
  {
    if c.Update? && c.ok && row.torrentLink == c.link then Assign(row, c.assignment) else row
  }

  /** One row after the calls, in order: the Updates of its own link that took effect, and nothing else. */
  function AssignAll(row: TorrentRow, calls: seq<Call>): (r: TorrentRow)
    ensures r.id == row.id && r.torrentLink == row.torrentLink && r.timeAdded == row.timeAdded
  {
    if calls == [] then row else ApplyToRow(AssignAll(row, calls[..|calls| - 1]), calls[|calls| - 1])
  }

  /** The calls change the table row by row: no row is added, removed or moved, and each evolves on its own. */
  lemma {:induction false} EffectPointwise(rows: seq<TorrentRow>, calls: seq<Call>)
    ensures |Effect(rows, calls)| == |rows|
    ensures forall i :: 0 <= i < |rows| ==> Effect(rows, calls)[i] == AssignAll(rows[i], calls)
  {
    if calls != [] {
      EffectPointwise(rows, calls[..|calls| - 1]);
    }
  }

  lemma {:induction false} AssignAllAppend(row: TorrentRow, a: seq<Call>, b: seq<Call>)
    ensures AssignAll(row, a + b) == AssignAll(AssignAll(row, a), b)
    decreases |b|
  {
    if b == [] {
      assert a + b == a;
    } else {
      var front, last := b[..|b| - 1], b[|b| - 1];
      assert (a + b)[..|a + b| - 1] == a + front;
      assert b[..|b| - 1] == front;
      AssignAllAppend(row, a, front);
    }
  }

  /** Calls that write nothing to a row's link leave the row as it was. */
  lemma {:induction false} AssignAllNoWrites(row: TorrentRow, calls: seq<Call>)
    requires forall c :: c in calls && c.Update? ==> c.link != row.torrentLink
    ensures AssignAll(row, calls) == row
  {
    if calls != [] {
      assert forall c :: c in calls[..|calls| - 1] ==> c in calls;
      AssignAllNoWrites(row, calls[..|calls| - 1]);
    }
  }

  lemma AssignAllPair(row: TorrentRow, c1: Call, c2: Call)
    ensures AssignAll(row, [c1, c2]) == ApplyToRow(ApplyToRow(row, c1), c2)
  {
    assert [c1, c2][..1] == [c1];
    assert [c1][..0] == [];
    assert AssignAll(row, [c1]) == ApplyToRow(row, c1);
  }

  lemma AssignAllTriple(row: TorrentRow, c1: Call, c2: Call, c3: Call)
    ensures AssignAll(row, [c1, c2, c3]) == ApplyToRow(ApplyToRow(ApplyToRow(row, c1), c2), c3)
  {
    assert [c1, c2, c3][..2] == [c1, c2];
    AssignAllPair(row, c1, c2);
  }

  // ---------------------------------------------------------------------------
  // The contexts fmt.Errorf puts in front of a wrapped error
  // ---------------------------------------------------------------------------

  function NameWriteContext(link: string, name: string): string
  {
    "h.torrentUpdater.UpdateTorrentName(ctx, " + Quote(link) + ", " + Quote(name) + ")"
  }

  function SizeWriteContext(link: string, size: Int64): string
  {
    "h.torrentUpdater.UpdateTorrentSize(ctx, " + Quote(link) + ", " + FormatInt(size) + ")"
  }

  /** A status write's context quotes time.Now().String(), not the time written. */
  function StatusWriteContext(link: string, nowText: string): string
  {
    "h.torrentUpdater.UpdateTorrentStatus(ctx, " + Quote(link) + ", " + Quote(nowText) + ")"
  }

  function MessageIdWriteContext(link: string, messageId: Int64): string
  {
    "h.torrentUpdater.UpdateTorrentMessageID(ctx, " + Quote(link) + ", " + FormatInt(messageId) + ")"
  }

  function ResolveContext(link: string): string
  {
    "h.loader.Torrent(ctx, " + Quote(link) + ")"
  }

  function PreLoadContext(link: string): string
  {
    "failed to update torrent " + Quote(link) + " status"
  }

  function UploadContext(path: string, target: string): string
  {
    "h.uploader.Upload(ctx, " + Quote(path) + ", " + Quote(target) + ")"
  }

  function PostLoadContext(link: string): string
  {
    "failed to torrent " + Quote(link) + " status"
  }

  // ---------------------------------------------------------------------------
  // The steps of a pass, as values
  // ---------------------------------------------------------------------------

  /** The three writes of preLoadUpdateTorrentState, each marked with whether it took effect. */
  function PreLoadPlan(link: string, info: Info, o: Outcomes): seq<Call>
  {
    [ Update(link, SetName(Some(info.bestName)), o.faults.name.None?),
      Update(link, SetSize(Some(info.length)), o.faults.size.None?),
      Update(link, SetStatus(Some(o.clock.started), None, None), o.faults.start.None?) ]
  }

  /** preLoadUpdateTorrentState: name, then size, then the start time, stopping at the first failed write. */
  function PreLoadRun(link: string, info: Info, o: Outcomes): Stage
  {
    var plan, f := PreLoadPlan(link, info, o), o.faults;
    if f.name.Some? then
      Stage([plan[0]], Some(Wrapped(NameWriteContext(link, info.bestName),
        Driver(f.name.value))))
    else if f.size.Some? then
      Stage([plan[0], plan[1]], Some(Wrapped(SizeWriteContext(link, info.length),
        Driver(f.size.value))))
    else if f.start.Some? then
      Stage(plan, Some(Wrapped(StatusWriteContext(link, o.clock.startedText),
        Driver(f.start.value))))
    else Stage(plan, None)
  }

  /** The writes of preLoadUpdateTorrentState come in plan order and stop at the first one that fails. */
  lemma PreLoadStopsAtFirstFailure(link: string, info: Info, o: Outcomes)
    ensures var s, plan := PreLoadRun(link, info, o), PreLoadPlan(link, info, o);
      1 <= |s.calls| <= 3 && s.calls == plan[..|s.calls|]
      && (forall i :: 0 <= i < |s.calls| - 1 ==> s.calls[i].ok)
      && (s.err.None? <==> |s.calls| == 3 && s.calls[2].ok)
      && (s.err.Some? <==> !s.calls[|s.calls| - 1].ok)
  {
  }

  /** What loadTorrent returns: the link (empty when the read failed), the torrent's info on success, and the step. */
  datatype Loaded = Loaded(link: string, info: Option<Info>, stage: Stage)

  /** loadTorrent, given what the read returned. */
  function LoadRun(first: Result<TorrentRow, Error>, o: Outcomes, maxTorrentSize: Int64): (r: Loaded)
    ensures r.stage.err.None? <==> r.info.Some?
  {
    match first
    case Err(e) =>
      Loaded("", None, Stage([ReadFirstUnstarted], Some(Wrapped("h.torrentProvider.GetFirstUnstartedTorrent(ctx)", e))))
    case Ok(row) =>
      var link := row.torrentLink;
      var head := [ReadFirstUnstarted, ResolveTorrent(link)];
      match o.resolved
      case Err(m) => Loaded(link, None, Stage(head, Some(Wrapped(ResolveContext(link), Foreign(m)))))
      case Ok(info) =>
        if info.length >= maxTorrentSize then Loaded(link, None, Stage(head, Some(MaxSize)))
        else
          LoadAfterPreLoad(link, info, head, PreLoadRun(link, info, o), o)
  }

  /** A torrent that resolves below the size limit goes on to the pre-load writes. */
  lemma LoadRunResolved(row: TorrentRow, info: Info, o: Outcomes, maxTorrentSize: Int64)
    requires o.resolved == Ok(info) && info.length < maxTorrentSize
    ensures var link := row.torrentLink;
      LoadRun(Ok(row), o, maxTorrentSize)
        == LoadAfterPreLoad(link, info, [ReadFirstUnstarted, ResolveTorrent(link)], PreLoadRun(link, info, o), o)
  {
  }

  /** loadTorrent's early exits: a failed read, a failed resolution, and a torrent at or over the size limit. */
  lemma LoadRunEarly(first: Result<TorrentRow, Error>, o: Outcomes, maxTorrentSize: Int64)
    ensures first.Err? ==>
      LoadRun(first, o, maxTorrentSize)
      == Loaded("", None, Stage([ReadFirstUnstarted], Some(Wrapped("h.torrentProvider.GetFirstUnstartedTorrent(ctx)", first.error))))
    ensures first.Ok? && o.resolved.Err? ==> var link := first.value.torrentLink;
      LoadRun(first, o, maxTorrentSize)
        == Loaded(link, None, Stage([ReadFirstUnstarted, ResolveTorrent(link)], Some(Wrapped(ResolveContext(link), Foreign(o.resolved.error)))))
    ensures first.Ok? && o.resolved.Ok? && o.resolved.value.length >= maxTorrentSize ==> var link := first.value.torrentLink;
      LoadRun(first, o, maxTorrentSize) == Loaded(link, None, Stage([ReadFirstUnstarted, ResolveTorrent(link)], Some(MaxSize)))
  {
  }

  /** The rest of loadTorrent once the pre-load writes have run: the download, unless a write failed. */
  function LoadAfterPreLoad(link: string, info: Info, head: seq<Call>, pre: Stage, o: Outcomes): (r: Loaded)
    ensures r.stage.err.None? <==> r.info.Some?
  {
    if pre.err.Some? then
      Loaded(link, None, Stage(head + pre.calls, Some(Wrapped(PreLoadContext(link), pre.err.value))))
    else
      var calls := head + pre.calls + [Download(link)];
      match o.loaded
      case Some(m) => Loaded(link, None, Stage(calls, Some(Wrapped("failed to load torrent", Foreign(m)))))
      case None => Loaded(link, Some(info), Stage(calls, None))
  }

  /** postLoadUpdateTorrentState: the message id, then a status write carrying only the finish time. */
  function PostLoadRun(link: string, messageId: Int64, o: Outcomes): Stage
  {
    var f := o.faults;
    var idWrite := Update(link, SetMessageId(Some(messageId)), f.messageId.None?);
    if f.messageId.Some? then
      Stage([idWrite], Some(Wrapped(MessageIdWriteContext(link, messageId),
        Driver(f.messageId.value))))
    else
      var finishWrite := Update(link, SetStatus(None, Some(o.clock.finished), None), f.finish.None?);
      if f.finish.Some? then
        Stage([idWrite, finishWrite], Some(Wrapped(StatusWriteContext(link, o.clock.finishedText),
          Driver(f.finish.value))))
      else Stage([idWrite, finishWrite], None)
  }

  /** uploadTorrent: upload the downloaded file, then record the result. */
  function UploadRun(link: string, name: string, o: Outcomes, cfg: Config): Stage
  {
    var path := JoinPath(cfg.loadDir, name);
    match o.uploaded
    case Err(m) =>
      Stage([Upload(path, cfg.targetDomain)],
        Some(Wrapped(UploadContext(path, cfg.targetDomain), Foreign(m))))
    case Ok(messageId) =>
      var post := PostLoadRun(link, messageId, o);
      Stage([Upload(path, cfg.targetDomain)] + post.calls,
        if post.err.Some? then Some(Wrapped(PostLoadContext(link), post.err.value)) else None)
  }

  /** The status write torrentError makes for a failure. */
  function ErrorWrite(link: string, failure: Error, o: Outcomes): Call
  {
    Update(link, SetStatus(None, Some(o.clock.failed), Some(Text(failure))), o.faults.errorStatus.None?)
  }

  /** torrentError: nothing for no error; otherwise one status write carrying the failure time and text. */
  function TorrentErrorRun(link: string, failure: Option<Error>, o: Outcomes): Stage
  {
    match failure
    case None => Stage([], None)
    case Some(e) =>
      Stage([ErrorWrite(link, e, o)],
        match o.faults.errorStatus
        case Some(m) => Some(Joined("h.torrentUpdater.UpdateTorrentStatus", link, e, Driver(m)))
        case None => None)
  }

  /**
   * torrentError with no failure makes no call and returns nil; with a
   * failure it makes exactly one status write, carrying the failure time and
   * text, and returns nil exactly when that write took effect, else an error
   * wrapping both the failure and the write's error.
   */
  lemma TorrentErrorOutcome(link: string, failure: Option<Error>, o: Outcomes)
    ensures failure.None? ==> TorrentErrorRun(link, failure, o) == Stage([], None)
    ensures failure.Some? ==>
      var s := TorrentErrorRun(link, failure, o);
      s.calls == [Update(link, SetStatus(None, Some(o.clock.failed), Some(Text(failure.value))), o.faults.errorStatus.None?)]
      && (s.err.None? <==> o.faults.errorStatus.None?)
      && (s.err.Some? ==> Is(s.err.value, failure.value) && Is(s.err.value, Driver(o.faults.errorStatus.value)))
  {
  }

  /** The failure handle reports once torrentError has run: wrapped together with the status error when there is one. */
  function Reported(link: string, failure: Error, statusErr: Option<Error>): Error
  {
    match statusErr
    case Some(s) => Joined("h.torrentError", link, failure, s)
    case None => failure
  }

  /** handle: one pass, given what the read of the first unstarted torrent returned. */
  function HandleRun(first: Result<TorrentRow, Error>, o: Outcomes, cfg: Config): Stage
  {
    var l := LoadRun(first, o, cfg.maxTorrentSize);
    match l.stage.err
    case Some(failure) =>
      if l.link != "" then
        var te := TorrentErrorRun(l.link, Some(failure), o);
        Stage(l.stage.calls + te.calls, Some(Wrapped("failed to load torrent", Reported(l.link, failure, te.err))))
      else Stage(l.stage.calls, Some(Wrapped("failed to load torrent", failure)))
    case None =>
      var up := UploadRun(l.link, l.info.value.bestName, o, cfg);
      match up.err
      case Some(failure) =>
        var te := TorrentErrorRun(l.link, Some(failure), o);
        Stage(l.stage.calls + up.calls + te.calls, Some(Wrapped("failed to upload torrent", Reported(l.link, failure, te.err))))
      case None => Stage(l.stage.calls + up.calls, None)
  }

  /** What GetFirstUnstartedTorrent returns for a driver outcome and a store. */
  function ReadFirst(read: Option<string>, torrents: seq<TorrentRow>, txu: seq<TorrentXUserRow>, users: seq<UserRow>): Result<TorrentRow, Error>
  {
    match read
    case Some(m) => Err(Driver(m))
    case None => FirstUnstarted(torrents, txu, users)
  }

  // ---------------------------------------------------------------------------
  // Properties of a pass
  // ---------------------------------------------------------------------------

  /**
   * When the read fails (including NoRows: nothing pending), the pass makes
   * only the read, writes nothing, never reaches the loader, and returns the
   * read's error wrapped twice.
   */
  lemma ReadFailureStopsThePass(rows: seq<TorrentRow>, first: Result<TorrentRow, Error>, o: Outcomes, cfg: Config)
    requires first.Err?
    ensures var s := HandleRun(first, o, cfg);
      s.calls == [ReadFirstUnstarted]
      && Effect(rows, s.calls) == rows
      && s.err == Some(Wrapped("failed to load torrent", Wrapped("h.torrentProvider.GetFirstUnstartedTorrent(ctx)", first.error)))
      && Is(s.err.value, first.error)
  {
    var s := HandleRun(first, o, cfg);
    assert s.calls[..0] == [];
  }

  /**
   * With GetFirstUnstartedTorrent as written the server refuses the read on
   * every store, so every pass makes only the read, writes nothing, and
   * returns an error wrapping the driver's: no torrent is ever processed.
   */
  lemma AsWrittenReadStopsEveryPass(rows: seq<TorrentRow>, txu: seq<TorrentXUserRow>, users: seq<UserRow>, o: Outcomes, cfg: Config)
    ensures var s := HandleRun(FirstUnstartedAsWritten(rows, txu, users), o, cfg);
      s.calls == [ReadFirstUnstarted] && Effect(rows, s.calls) == rows
      && s.err.Some? && Is(s.err.value, Driver(UndefinedColumn))
  {
    ReadFailureStopsThePass(rows, FirstUnstartedAsWritten(rows, txu, users), o, cfg);
  }

  /**
   * A torrent at least maxTorrentSize long fails with ErrMaxSize before any
   * pre-load write: the pass resolves it, never downloads or uploads, and
   * its only write is the error status (none when the link is empty).
   */
  lemma OversizeNeverLoads(first: Result<TorrentRow, Error>, o: Outcomes, cfg: Config)
    requires first.Ok? && o.resolved.Ok? && o.resolved.value.length >= cfg.maxTorrentSize
    ensures var s, link := HandleRun(first, o, cfg), first.value.torrentLink;
      s.calls == [ReadFirstUnstarted, ResolveTorrent(link)] + (if link != "" then [ErrorWrite(link, MaxSize, o)] else [])
      && s.err.Some? && Is(s.err.value, MaxSize)
  {
  }

  /** The pass gets as far as the download: the read and the resolution succeed, the size is below the limit and the three pre-load writes take effect. */
  predicate ReachesDownload(first: Result<TorrentRow, Error>, o: Outcomes, cfg: Config)
  {
    first.Ok? && o.resolved.Ok? && o.resolved.value.length < cfg.maxTorrentSize
    && o.faults.name.None? && o.faults.size.None? && o.faults.start.None?
  }

  /** The calls of a pass up to and including the download. */
  function DownloadPrefix(link: string, info: Info, o: Outcomes): seq<Call>
  {
    [ReadFirstUnstarted, ResolveTorrent(link)] + PreLoadPlan(link, info, o) + [Download(link)]
  }

  /** Every call of the post-load step and of torrentError is a repository write. */
  lemma LateCallsAreWrites(link: string, messageId: Int64, failure: Option<Error>, o: Outcomes)
    ensures forall c :: c in PostLoadRun(link, messageId, o).calls ==> c.Update?
    ensures forall c :: c in TorrentErrorRun(link, failure, o).calls ==> c.Update?
  {
  }

  /** loadTorrent's calls: the download prefix when it gets that far, otherwise neither a download nor an upload. */
  lemma LoadCalls(first: Result<TorrentRow, Error>, o: Outcomes, cfg: Config)
    ensures var l := LoadRun(first, o, cfg.maxTorrentSize);
      (ReachesDownload(first, o, cfg) ==> l.stage.calls == DownloadPrefix(first.value.torrentLink, o.resolved.value, o))
      && (!ReachesDownload(first, o, cfg) ==> forall c :: c in l.stage.calls ==> !c.Download? && !c.Upload?)
      && (l.stage.err.None? ==>
            ReachesDownload(first, o, cfg) && o.loaded.None? && l.link == first.value.torrentLink && l.info == Some(o.resolved.value))
  {
    if first.Ok? && o.resolved.Ok? && o.resolved.value.length < cfg.maxTorrentSize {
      var link, info := first.value.torrentLink, o.resolved.value;
      var pre := PreLoadRun(link, info, o);
      PreLoadStopsAtFirstFailure(link, info, o);
      if pre.err.Some? {
        var plan := PreLoadPlan(link, info, o);
        assert forall c :: c in pre.calls ==> c in plan;
      }
    }
  }

  /**
   * A pass is loadTorrent's calls followed by a tail in which only the
   * first call after a completed download can be the upload, and every
   * other call is a repository write.
   */
  lemma HandleCalls(first: Result<TorrentRow, Error>, o: Outcomes, cfg: Config)
    ensures var s, l := HandleRun(first, o, cfg), LoadRun(first, o, cfg.maxTorrentSize);
      |l.stage.calls| <= |s.calls| && s.calls[..|l.stage.calls|] == l.stage.calls
      && (l.stage.err.None? ==> |s.calls| > |l.stage.calls| && s.calls[|l.stage.calls|] == Upload(JoinPath(cfg.loadDir, l.info.value.bestName), cfg.targetDomain))
      && (forall i :: |l.stage.calls| <= i < |s.calls| && !(l.stage.err.None? && i == |l.stage.calls|) ==> s.calls[i].Update?)
  {
    var l := LoadRun(first, o, cfg.maxTorrentSize);
    PassCallsShape(first, o, cfg);
    if l.stage.err.Some? {
      WritesAfter(l.stage.calls, TorrentErrorRun(l.link, if l.link != "" then l.stage.err else None, o).calls);
    } else {
      UploadThenWrites(l.stage.calls, l.link, l.info.value.bestName, o, cfg);
    }
  }

  /** Calls followed by torrentError's: every call of the tail is a write. */
  lemma WritesAfter(head: seq<Call>, tail: seq<Call>)
    requires forall c :: c in tail ==> c.Update?
    ensures var all := head + tail;
      |head| <= |all| && all[..|head|] == head && forall i :: |head| <= i < |all| ==> all[i].Update?
  {
    var all := head + tail;
    assert all[..|head|] == head;
    forall i | |head| <= i < |all|
      ensures all[i].Update?
    {
      assert all[i] == tail[i - |head|];
    }
  }

  /** Calls followed by uploadTorrent's and torrentError's: the upload first, then only writes. */
  lemma UploadThenWrites(head: seq<Call>, link: string, name: string, o: Outcomes, cfg: Config)
    ensures var up := UploadRun(link, name, o, cfg);
      var all := head + up.calls + TorrentErrorRun(link, up.err, o).calls;
      |head| < |all| && all[..|head|] == head && all[|head|] == Upload(JoinPath(cfg.loadDir, name), cfg.targetDomain)
      && forall i :: |head| < i < |all| ==> all[i].Update?
  {
    var up := UploadRun(link, name, o, cfg);
    var te := TorrentErrorRun(link, up.err, o);
    var id := if o.uploaded.Ok? then o.uploaded.value else 0;
    LateCallsAreWrites(link, id, up.err, o);
    assert o.uploaded.Ok? ==> up.calls[1..] == PostLoadRun(link, id, o).calls;
    var rest := up.calls[1..] + te.calls;
    var all := head + up.calls + te.calls;
    assert all == head + [up.calls[0]] + rest;
    assert all[..|head|] == head;
    forall i | |head| < i < |all|
      ensures all[i].Update?
    {
      assert all[i] == rest[i - |head| - 1];
    }
  }

  /** The calls of a pass: loadTorrent's, then uploadTorrent's when the load succeeded, then torrentError's. */
  lemma PassCallsShape(first: Result<TorrentRow, Error>, o: Outcomes, cfg: Config)
    ensures var s, l := HandleRun(first, o, cfg), LoadRun(first, o, cfg.maxTorrentSize);
      (l.stage.err.Some? ==> s.calls == l.stage.calls + TorrentErrorRun(l.link, if l.link != "" then l.stage.err else None, o).calls)
      && (l.stage.err.None? ==>
            var up := UploadRun(l.link, l.info.value.bestName, o, cfg);
            s.calls == l.stage.calls + up.calls + TorrentErrorRun(l.link, up.err, o).calls)
  {
    var l := LoadRun(first, o, cfg.maxTorrentSize);
    if l.stage.err.Some? && l.link == "" {
      assert l.stage.calls + [] == l.stage.calls;
    } else if l.stage.err.None? {
      var up := UploadRun(l.link, l.info.value.bestName, o, cfg);
      if up.err.None? {
        assert l.stage.calls + up.calls + [] == l.stage.calls + up.calls;
      }
    }
  }

  /**
   * The download happens exactly when the three pre-load writes, in order
   * name, size, start, all took effect, and then exactly once, right after
   * them.
   */
  lemma DownloadOnlyAfterPreLoad(first: Result<TorrentRow, Error>, o: Outcomes, cfg: Config)
    ensures var s := HandleRun(first, o, cfg);
      ((exists c :: c in s.calls && c.Download?) <==> ReachesDownload(first, o, cfg))
      && (ReachesDownload(first, o, cfg) ==>
            |s.calls| >= 6 && s.calls[..6] == DownloadPrefix(first.value.torrentLink, o.resolved.value, o)
            && forall i :: 6 <= i < |s.calls| ==> !s.calls[i].Download?)
  {
    var s := HandleRun(first, o, cfg);
    var l := LoadRun(first, o, cfg.maxTorrentSize);
    var n := |l.stage.calls|;
    LoadCalls(first, o, cfg);
    HandleCalls(first, o, cfg);
    forall i | n <= i < |s.calls|
      ensures !s.calls[i].Download?
    {
    }
    if ReachesDownload(first, o, cfg) {
      assert s.calls[5] in s.calls;
    } else {
      forall c | c in s.calls
        ensures !c.Download?
      {
        var i :| 0 <= i < |s.calls| && s.calls[i] == c;
        if i < n {
          assert c in l.stage.calls;
        }
      }
    }
  }

  /**
   * The upload happens exactly when the download completed, and right after
   * it; it receives loadDir joined with the torrent's best name, and the
   * target domain.
   */
  lemma UploadOnlyAfterDownload(first: Result<TorrentRow, Error>, o: Outcomes, cfg: Config)
    ensures var s := HandleRun(first, o, cfg);
      ((exists c :: c in s.calls && c.Upload?) <==> ReachesDownload(first, o, cfg) && o.loaded.None?)
      && (ReachesDownload(first, o, cfg) && o.loaded.None? ==>
            |s.calls| >= 7
            && s.calls[..7] == DownloadPrefix(first.value.torrentLink, o.resolved.value, o)
                 + [Upload(JoinPath(cfg.loadDir, o.resolved.value.bestName), cfg.targetDomain)])
  {
    var s := HandleRun(first, o, cfg);
    var l := LoadRun(first, o, cfg.maxTorrentSize);
    LoadCalls(first, o, cfg);
    if l.stage.err.Some? {
      var te := TorrentErrorRun(l.link, l.stage.err, o);
      LateCallsAreWrites(l.link, 0, l.stage.err, o);
      assert s.calls == l.stage.calls + te.calls || s.calls == l.stage.calls;
      if ReachesDownload(first, o, cfg) {
        assert forall c :: c in l.stage.calls ==> !c.Upload?;
      }
    } else {
      var up := UploadRun(l.link, l.info.value.bestName, o, cfg);
      var te := TorrentErrorRun(l.link, up.err, o);
      assert s.calls == l.stage.calls + up.calls + te.calls;
      assert s.calls[..7] == l.stage.calls + [up.calls[0]];
      assert s.calls[6] in s.calls;
    }
  }

  /** The failure a pass hands to torrentError: loadTorrent's error, else uploadTorrent's. */
  function PassFailure(first: Result<TorrentRow, Error>, o: Outcomes, cfg: Config): Option<Error>
  {
    var l := LoadRun(first, o, cfg.maxTorrentSize);
    if l.stage.err.Some? then l.stage.err else UploadRun(l.link, l.info.value.bestName, o, cfg).err
  }

  /** Whether a call writes an error status (a status write with its error column set). */
  predicate IsErrorWrite(c: Call)
  {
    c.Update? && c.assignment.SetStatus? && c.assignment.error.Some?
  }

  /** The number of error-status writes among the calls. */
  function ErrorWrites(calls: seq<Call>): nat
  {
    if calls == [] then 0 else ErrorWrites(calls[..|calls| - 1]) + (if IsErrorWrite(calls[|calls| - 1]) then 1 else 0)
  }

  lemma {:induction false} ErrorWritesAppend(a: seq<Call>, b: seq<Call>)
    ensures ErrorWrites(a + b) == ErrorWrites(a) + ErrorWrites(b)
    decreases |b|
  {
    if b == [] {
      assert a + b == a;
    } else {
      assert (a + b)[..|a + b| - 1] == a + b[..|b| - 1];
      ErrorWritesAppend(a, b[..|b| - 1]);
    }
  }

  lemma {:induction false} NoErrorWrites(calls: seq<Call>)
    requires forall c :: c in calls ==> !IsErrorWrite(c)
    ensures ErrorWrites(calls) == 0
  {
    if calls != [] {
      assert forall c :: c in calls[..|calls| - 1] ==> c in calls;
      NoErrorWrites(calls[..|calls| - 1]);
    }
  }

  /** Before torrentError runs, no call of a pass writes an error status, and every write is to the pass's own link. */
  lemma StepsBeforeTorrentError(first: Result<TorrentRow, Error>, o: Outcomes, cfg: Config)
    ensures var l := LoadRun(first, o, cfg.maxTorrentSize);
      forall c :: c in l.stage.calls ==> !IsErrorWrite(c) && (c.Update? ==> first.Ok? && c.link == first.value.torrentLink)
    ensures var l := LoadRun(first, o, cfg.maxTorrentSize);
      l.stage.err.None? ==> var up := UploadRun(l.link, l.info.value.bestName, o, cfg);
        forall c :: c in up.calls ==> !IsErrorWrite(c) && (c.Update? ==> c.link == first.value.torrentLink)
  {
    var l := LoadRun(first, o, cfg.maxTorrentSize);
    LoadCalls(first, o, cfg);
    if first.Ok? && o.resolved.Ok? && o.resolved.value.length < cfg.maxTorrentSize {
      var link, info := first.value.torrentLink, o.resolved.value;
      var pre := PreLoadRun(link, info, o);
      PreLoadStopsAtFirstFailure(link, info, o);
      var plan := PreLoadPlan(link, info, o);
      assert forall c :: c in pre.calls ==> c in plan;
    }
  }

  /** Every write of a pass is to the link it read; no write happens when the read fails. */
  lemma PassWritesOnlyItsLink(first: Result<TorrentRow, Error>, o: Outcomes, cfg: Config)
    ensures forall c :: c in HandleRun(first, o, cfg).calls && c.Update? ==> first.Ok? && c.link == first.value.torrentLink
  {
    var s, l := HandleRun(first, o, cfg), LoadRun(first, o, cfg.maxTorrentSize);
    StepsBeforeTorrentError(first, o, cfg);
    if l.stage.err.None? {
      var up := UploadRun(l.link, l.info.value.bestName, o, cfg);
      LoadCalls(first, o, cfg);
      assert s.calls == l.stage.calls + up.calls + TorrentErrorRun(l.link, up.err, o).calls;
    } else {
      assert s.calls == l.stage.calls + TorrentErrorRun(l.link, l.stage.err, o).calls || s.calls == l.stage.calls;
    }
  }

  /** A pass leaves every row of another link exactly as it was. */
  lemma OtherRowsUnchanged(rows: seq<TorrentRow>, first: Result<TorrentRow, Error>, o: Outcomes, cfg: Config, i: nat)
    requires i < |rows| && (first.Err? || rows[i].torrentLink != first.value.torrentLink)
    ensures var after := Effect(rows, HandleRun(first, o, cfg).calls);
      |after| == |rows| && after[i] == rows[i]
  {
    var calls := HandleRun(first, o, cfg).calls;
    EffectPointwise(rows, calls);
    PassWritesOnlyItsLink(first, o, cfg);
    AssignAllNoWrites(rows[i], calls);
  }

  /**
   * A failure after the link is known is recorded by exactly one
   * error-status write, the last call of the pass, carrying the failure
   * time and the failure's text; the returned error wraps the failure and,
   * when that write fails too, the write's error as well.
   */
  lemma FailureIsRecordedOnce(first: Result<TorrentRow, Error>, o: Outcomes, cfg: Config)
    requires first.Ok? && first.value.torrentLink != ""
    ensures var s, f, link := HandleRun(first, o, cfg), PassFailure(first, o, cfg), first.value.torrentLink;
      (s.err.Some? <==> f.Some?)
      && (f.None? ==> ErrorWrites(s.calls) == 0)
      && (f.Some? ==>
            |s.calls| > 0 && s.calls[|s.calls| - 1] == ErrorWrite(link, f.value, o) && ErrorWrites(s.calls) == 1
            && Is(s.err.value, f.value)
            && (o.faults.errorStatus.Some? ==> Is(s.err.value, Driver(o.faults.errorStatus.value))))
  {
    var l := LoadRun(first, o, cfg.maxTorrentSize);
    StepsBeforeTorrentError(first, o, cfg);
    LoadCalls(first, o, cfg);
    NoErrorWrites(l.stage.calls);
    if l.stage.err.Some? {
      LoadFailureRecorded(first, o, cfg);
    } else {
      var up := UploadRun(l.link, l.info.value.bestName, o, cfg);
      NoErrorWrites(up.calls);
      ErrorWritesAppend(l.stage.calls, up.calls);
      UploadOutcomeRecorded(first, o, cfg);
    }
  }

  lemma LoadFailureRecorded(first: Result<TorrentRow, Error>, o: Outcomes, cfg: Config)
    requires first.Ok? && first.value.torrentLink != ""
    requires LoadRun(first, o, cfg.maxTorrentSize).stage.err.Some?
    requires ErrorWrites(LoadRun(first, o, cfg.maxTorrentSize).stage.calls) == 0
    ensures var s, l, link := HandleRun(first, o, cfg), LoadRun(first, o, cfg.maxTorrentSize), first.value.torrentLink;
      var f := l.stage.err.value;
      s.err.Some?
      && |s.calls| > 0 && s.calls[|s.calls| - 1] == ErrorWrite(link, f, o) && ErrorWrites(s.calls) == 1
      && Is(s.err.value, f)
      && (o.faults.errorStatus.Some? ==> Is(s.err.value, Driver(o.faults.errorStatus.value)))
  {
    var l, link := LoadRun(first, o, cfg.maxTorrentSize), first.value.torrentLink;
    var f := l.stage.err.value;
    var te := TorrentErrorRun(link, Some(f), o);
    assert l.link == link;
    assert HandleRun(first, o, cfg) == Stage(l.stage.calls + te.calls, Some(Wrapped("failed to load torrent", Reported(link, f, te.err))));
    RecordedAfter(l.stage.calls, link, f, o);
  }

  lemma UploadOutcomeRecorded(first: Result<TorrentRow, Error>, o: Outcomes, cfg: Config)
    requires first.Ok?
    requires LoadRun(first, o, cfg.maxTorrentSize).stage.err.None?
    requires var l := LoadRun(first, o, cfg.maxTorrentSize);
      ErrorWrites(l.stage.calls + UploadRun(l.link, l.info.value.bestName, o, cfg).calls) == 0
    ensures var s, l, link := HandleRun(first, o, cfg), LoadRun(first, o, cfg.maxTorrentSize), first.value.torrentLink;
      var up := UploadRun(l.link, l.info.value.bestName, o, cfg);
      (s.err.Some? <==> up.err.Some?)
      && (up.err.None? ==> ErrorWrites(s.calls) == 0)
      && (up.err.Some? ==>
            |s.calls| > 0 && s.calls[|s.calls| - 1] == ErrorWrite(link, up.err.value, o) && ErrorWrites(s.calls) == 1
            && Is(s.err.value, up.err.value)
            && (o.faults.errorStatus.Some? ==> Is(s.err.value, Driver(o.faults.errorStatus.value))))
  {
    var l, link := LoadRun(first, o, cfg.maxTorrentSize), first.value.torrentLink;
    LoadCalls(first, o, cfg);
    var up := UploadRun(l.link, l.info.value.bestName, o, cfg);
    if up.err.Some? {
      var f := up.err.value;
      var te := TorrentErrorRun(link, Some(f), o);
      assert HandleRun(first, o, cfg) == Stage(l.stage.calls + up.calls + te.calls, Some(Wrapped("failed to upload torrent", Reported(link, f, te.err))));
      RecordedAfter(l.stage.calls + up.calls, link, f, o);
    } else {
      assert HandleRun(first, o, cfg) == Stage(l.stage.calls + up.calls, None);
    }
  }

  /** Calls without an error write, followed by torrentError's write: one error write, the last call. */
  lemma RecordedAfter(calls: seq<Call>, link: string, failure: Error, o: Outcomes)
    requires ErrorWrites(calls) == 0
    ensures var all := calls + TorrentErrorRun(link, Some(failure), o).calls;
      |all| > 0 && all[|all| - 1] == ErrorWrite(link, failure, o) && ErrorWrites(all) == 1
    ensures var e := Reported(link, failure, TorrentErrorRun(link, Some(failure), o).err);
      Is(e, failure) && (o.faults.errorStatus.Some? ==> Is(e, Driver(o.faults.errorStatus.value)))
  {
    var w := ErrorWrite(link, failure, o);
    ErrorWritesAppend(calls, [w]);
    assert [w][..0] == [];
  }

  /**
   * After a successful pass every row of the torrent's link holds the name,
   * size and message id, the finish time, and NULL start time and error:
   * the final status write overwrites all three status columns.
   */
  lemma SuccessfulPassState(rows: seq<TorrentRow>, first: Result<TorrentRow, Error>, o: Outcomes, cfg: Config, i: nat)
    requires HandleRun(first, o, cfg).err.None?
    requires i < |rows| && first.Ok? && rows[i].torrentLink == first.value.torrentLink
    ensures o.resolved.Ok? && o.uploaded.Ok?
    ensures var after := Effect(rows, HandleRun(first, o, cfg).calls);
      |after| == |rows|
      && after[i] == rows[i].(name := Some(o.resolved.value.bestName), size := Some(o.resolved.value.length),
           messageId := Some(o.uploaded.value), timeStarted := None, timeFinished := Some(o.clock.finished), error := None)
  {
    var calls := HandleRun(first, o, cfg).calls;
    SuccessfulPassCalls(first, o, cfg);
    EffectPointwise(rows, calls);
    var link, info := first.value.torrentLink, o.resolved.value;
    SuccessfulWritesOnRow(rows[i], info, o, Upload(JoinPath(cfg.loadDir, info.bestName), cfg.targetDomain));
  }

  /** The calls of a successful pass: the download prefix, the upload, then the two post-load writes, every write taking effect. */
  lemma SuccessfulPassCalls(first: Result<TorrentRow, Error>, o: Outcomes, cfg: Config)
    requires HandleRun(first, o, cfg).err.None?
    ensures ReachesDownload(first, o, cfg) && o.loaded.None? && o.uploaded.Ok?
    ensures o.faults.messageId.None? && o.faults.finish.None?
    ensures var link, info := first.value.torrentLink, o.resolved.value;
      HandleRun(first, o, cfg).calls
        == DownloadPrefix(link, info, o) + [Upload(JoinPath(cfg.loadDir, info.bestName), cfg.targetDomain)]
          + PostLoadRun(link, o.uploaded.value, o).calls
  {
    var l := LoadRun(first, o, cfg.maxTorrentSize);
    LoadCalls(first, o, cfg);
    var link, info := first.value.torrentLink, o.resolved.value;
    var up := UploadRun(link, info.bestName, o, cfg);
    assert HandleRun(first, o, cfg).calls == l.stage.calls + up.calls;
  }

  /** The writes of a successful pass, on a row of its link: name, size, start, message id, then the finish overwrite. */
  lemma SuccessfulWritesOnRow(row: TorrentRow, info: Info, o: Outcomes, upload: Call)
    requires o.faults.name.None? && o.faults.size.None? && o.faults.start.None?
    requires o.faults.messageId.None? && o.faults.finish.None? && o.uploaded.Ok? && upload.Upload?
    ensures var link := row.torrentLink;
      AssignAll(row, DownloadPrefix(link, info, o) + [upload] + PostLoadRun(link, o.uploaded.value, o).calls)
        == row.(name := Some(info.bestName), size := Some(info.length), messageId := Some(o.uploaded.value),
             timeStarted := None, timeFinished := Some(o.clock.finished), error := None)
  {
    var link := row.torrentLink;
    var head := [ReadFirstUnstarted, ResolveTorrent(link)];
    var plan := PreLoadPlan(link, info, o);
    var middle := [Download(link), upload];
    var post := PostLoadRun(link, o.uploaded.value, o).calls;
    assert DownloadPrefix(link, info, o) + [upload] + post == head + plan + middle + post;
    AssignAllAppend(row, head + plan + middle, post);
    AssignAllAppend(row, head + plan, middle);
    AssignAllAppend(row, head, plan);
    AssignAllNoWrites(row, head);
    AssignAllTriple(row, plan[0], plan[1], plan[2]);
    assert plan == [plan[0], plan[1], plan[2]];
    var afterPre := AssignAll(row, head + plan);
    AssignAllNoWrites(afterPre, middle);
    assert post == [post[0], post[1]];
    AssignAllPair(AssignAll(afterPre, middle), post[0], post[1]);
  }

  /** The pass's name write took effect: the torrent resolved below the size limit and UpdateTorrentName did not fail. */
  predicate NameWritten(first: Result<TorrentRow, Error>, o: Outcomes, cfg: Config)
  {
    first.Ok? && o.resolved.Ok? && o.resolved.value.length < cfg.maxTorrentSize && o.faults.name.None?
  }

  /** The pass's size write took effect: the name write did and UpdateTorrentSize did not fail. */
  predicate SizeWritten(first: Result<TorrentRow, Error>, o: Outcomes, cfg: Config)
  {
    NameWritten(first, o, cfg) && o.faults.size.None?
  }

  /** The pass's message-id write took effect: the download completed, the upload returned an id and UpdateTorrentMessageID did not fail. */
  predicate MessageIdWritten(first: Result<TorrentRow, Error>, o: Outcomes, cfg: Config)
  {
    ReachesDownload(first, o, cfg) && o.loaded.None? && o.uploaded.Ok? && o.faults.messageId.None?
  }

  lemma AssignAllOne(row: TorrentRow, c: Call)
    ensures AssignAll(row, [c]) == ApplyToRow(row, c)
  {
    assert [c][..0] == [];
  }

  /** preLoadUpdateTorrentState on a row of its link: the name when its write took effect, the size when both did, the message id untouched. */
  lemma PreLoadOnRow(row: TorrentRow, info: Info, o: Outcomes)
    ensures var r := AssignAll(row, PreLoadRun(row.torrentLink, info, o).calls);
      r.name == (if o.faults.name.None? then Some(info.bestName) else row.name)
      && r.size == (if o.faults.name.None? && o.faults.size.None? then Some(info.length) else row.size)
      && r.messageId == row.messageId
  {
    var plan := PreLoadPlan(row.torrentLink, info, o);
    if o.faults.name.Some? {
      AssignAllOne(row, plan[0]);
    } else if o.faults.size.Some? {
      AssignAllPair(row, plan[0], plan[1]);
    } else {
      assert plan == [plan[0], plan[1], plan[2]];
      AssignAllTriple(row, plan[0], plan[1], plan[2]);
    }
  }

  /** postLoadUpdateTorrentState on a row of its link: the message id when its write took effect; name and size untouched. */
  lemma PostLoadOnRow(row: TorrentRow, messageId: Int64, o: Outcomes)
    ensures var r := AssignAll(row, PostLoadRun(row.torrentLink, messageId, o).calls);
      r.name == row.name && r.size == row.size
      && r.messageId == (if o.faults.messageId.None? then Some(messageId) else row.messageId)
  {
    var calls := PostLoadRun(row.torrentLink, messageId, o).calls;
    if o.faults.messageId.Some? {
      AssignAllOne(row, calls[0]);
    } else {
      assert calls == [calls[0], calls[1]];
      AssignAllPair(row, calls[0], calls[1]);
    }
  }

  /** loadTorrent on a row of its link: the name and size as far as their writes took effect, the message id untouched. */
  lemma LoadOnRow(row: TorrentRow, first: Result<TorrentRow, Error>, o: Outcomes, cfg: Config)
    requires first.Ok? && row.torrentLink == first.value.torrentLink
    ensures var r := AssignAll(row, LoadRun(first, o, cfg.maxTorrentSize).stage.calls);
      r.name == (if NameWritten(first, o, cfg) then Some(o.resolved.value.bestName) else row.name)
      && r.size == (if SizeWritten(first, o, cfg) then Some(o.resolved.value.length) else row.size)
      && r.messageId == row.messageId
  {
    var link := row.torrentLink;
    var head := [ReadFirstUnstarted, ResolveTorrent(link)];
    AssignAllNoWrites(row, head);
    LoadRunEarly(first, o, cfg.maxTorrentSize);
    if o.resolved.Ok? && o.resolved.value.length < cfg.maxTorrentSize {
      var info := o.resolved.value;
      var pre := PreLoadRun(link, info, o);
      LoadRunResolved(first.value, info, o, cfg.maxTorrentSize);
      AssignAllAppend(row, head, pre.calls);
      PreLoadOnRow(row, info, o);
      if pre.err.None? {
        AssignAllAppend(row, head + pre.calls, [Download(link)]);
        AssignAllOne(AssignAll(row, head + pre.calls), Download(link));
      }
    }
  }

  /** uploadTorrent on a row of its link: the message id when the upload returned one and its write took effect; name and size untouched. */
  lemma UploadOnRow(row: TorrentRow, name: string, o: Outcomes, cfg: Config)
    ensures var r := AssignAll(row, UploadRun(row.torrentLink, name, o, cfg).calls);
      r.name == row.name && r.size == row.size
      && r.messageId == (if o.uploaded.Ok? && o.faults.messageId.None? then Some(o.uploaded.value) else row.messageId)
  {
    var up := [Upload(JoinPath(cfg.loadDir, name), cfg.targetDomain)];
    AssignAllOne(row, up[0]);
    if o.uploaded.Ok? {
      AssignAllAppend(row, up, PostLoadRun(row.torrentLink, o.uploaded.value, o).calls);
      PostLoadOnRow(row, o.uploaded.value, o);
    }
  }

  /** A failed pass up to torrentError's write, on a row of its link: name, size and message id as far as their writes took effect. */
  lemma BeforeErrorWriteOnRow(row: TorrentRow, first: Result<TorrentRow, Error>, o: Outcomes, cfg: Config)
    requires first.Ok? && first.value.torrentLink != "" && row.torrentLink == first.value.torrentLink
    requires PassFailure(first, o, cfg).Some?
    ensures var calls := HandleRun(first, o, cfg).calls;
      |calls| > 0
      && var r := AssignAll(row, calls[..|calls| - 1]);
      r.name == (if NameWritten(first, o, cfg) then Some(o.resolved.value.bestName) else row.name)
      && r.size == (if SizeWritten(first, o, cfg) then Some(o.resolved.value.length) else row.size)
      && r.messageId == (if MessageIdWritten(first, o, cfg) then Some(o.uploaded.value) else row.messageId)
  {
    var s, l := HandleRun(first, o, cfg), LoadRun(first, o, cfg.maxTorrentSize);
    LoadCalls(first, o, cfg);
    LoadOnRow(row, first, o, cfg);
    assert ReachesDownload(first, o, cfg) && o.loaded.None? ==> l.stage.err.None? by {
      if ReachesDownload(first, o, cfg) {
        LoadRunResolved(first.value, o.resolved.value, o, cfg.maxTorrentSize);
      }
    }
    if l.stage.err.Some? {
      var te := TorrentErrorRun(l.link, l.stage.err, o);
      assert s.calls == l.stage.calls + te.calls;
      assert s.calls[..|s.calls| - 1] == l.stage.calls;
    } else {
      var up := UploadRun(l.link, l.info.value.bestName, o, cfg);
      var te := TorrentErrorRun(l.link, up.err, o);
      assert s.calls == l.stage.calls + up.calls + te.calls;
      assert s.calls[..|s.calls| - 1] == l.stage.calls + up.calls;
      AssignAllAppend(row, l.stage.calls, up.calls);
      UploadOnRow(AssignAll(row, l.stage.calls), l.info.value.bestName, o, cfg);
    }
  }

  /**
   * After a failed pass whose error-status write took effect, every row of
   * the torrent's link has a NULL start time, the failure time and the
   * failure's text; its name, size and message id are the ones the pass
   * managed to write before failing, and otherwise what the row held
   * before, so a message id can stand beside the error.
   */
  lemma FailedPassState(rows: seq<TorrentRow>, first: Result<TorrentRow, Error>, o: Outcomes, cfg: Config, i: nat)
    requires first.Ok? && first.value.torrentLink != "" && PassFailure(first, o, cfg).Some? && o.faults.errorStatus.None?
    requires i < |rows| && rows[i].torrentLink == first.value.torrentLink
    ensures var after, row := Effect(rows, HandleRun(first, o, cfg).calls), rows[i];
      |after| == |rows|
      && after[i] == row.(name := if NameWritten(first, o, cfg) then Some(o.resolved.value.bestName) else row.name,
                          size := if SizeWritten(first, o, cfg) then Some(o.resolved.value.length) else row.size,
                          messageId := if MessageIdWritten(first, o, cfg) then Some(o.uploaded.value) else row.messageId,
                          timeStarted := None, timeFinished := Some(o.clock.failed),
                          error := Some(Text(PassFailure(first, o, cfg).value)))
  {
    var calls := HandleRun(first, o, cfg).calls;
    EffectPointwise(rows, calls);
    FailedRowState(rows[i], first, o, cfg);
  }

  /** A failed pass on one row of its link: the writes before the failure, then torrentError's status overwrite. */
  lemma FailedRowState(row: TorrentRow, first: Result<TorrentRow, Error>, o: Outcomes, cfg: Config)
    requires first.Ok? && first.value.torrentLink != "" && PassFailure(first, o, cfg).Some? && o.faults.errorStatus.None?
    requires row.torrentLink == first.value.torrentLink
    ensures AssignAll(row, HandleRun(first, o, cfg).calls)
      == row.(name := if NameWritten(first, o, cfg) then Some(o.resolved.value.bestName) else row.name,
              size := if SizeWritten(first, o, cfg) then Some(o.resolved.value.length) else row.size,
              messageId := if MessageIdWritten(first, o, cfg) then Some(o.uploaded.value) else row.messageId,
              timeStarted := None, timeFinished := Some(o.clock.failed),
              error := Some(Text(PassFailure(first, o, cfg).value)))
  {
    var calls := HandleRun(first, o, cfg).calls;
    FailureIsRecordedOnce(first, o, cfg);
    BeforeErrorWriteOnRow(row, first, o, cfg);
    assert AssignAll(row, calls) == ApplyToRow(AssignAll(row, calls[..|calls| - 1]), calls[|calls| - 1]);
  }

  /**
   * A pass can end with both a message id and an error on its row: the
   * upload returns an id, its write takes effect, then the finish-status
   * write fails and torrentError records that failure on the same row.
   */
  lemma MessageIdBesideError(rows: seq<TorrentRow>, first: Result<TorrentRow, Error>, o: Outcomes, cfg: Config, i: nat)
    requires ReachesDownload(first, o, cfg) && first.value.torrentLink != "" && o.loaded.None? && o.uploaded.Ok?
    requires o.faults.messageId.None? && o.faults.finish.Some? && o.faults.errorStatus.None?
    requires i < |rows| && rows[i].torrentLink == first.value.torrentLink
    ensures PassFailure(first, o, cfg).Some?
    ensures var after := Effect(rows, HandleRun(first, o, cfg).calls);
      |after| == |rows| && after[i].messageId == Some(o.uploaded.value) && after[i].error.Some? && after[i].timeFinished == Some(o.clock.failed)
  {
    LoadRunResolved(first.value, o.resolved.value, o, cfg.maxTorrentSize);
    FailedPassState(rows, first, o, cfg, i);
  }

  /**
   * With the intended `IS NULL` selection, a pass that succeeds (or fails
   * and records its failure) leaves its torrent unstarted again, so the
   * next read still finds a torrent to process: nothing marks a torrent as
   * done for that query.
   */
  lemma ProcessedTorrentIsPendingAgain(rows: seq<TorrentRow>, txu: seq<TorrentXUserRow>, users: seq<UserRow>, o: Outcomes, cfg: Config)
    requires var first := FirstUnstarted(rows, txu, users);
      first.Ok? && (HandleRun(first, o, cfg).err.None?
        || (first.value.torrentLink != "" && PassFailure(first, o, cfg).Some? && o.faults.errorStatus.None?))
    ensures FirstUnstarted(Effect(rows, HandleRun(FirstUnstarted(rows, txu, users), o, cfg).calls), txu, users).Ok?
  {
    var first := FirstUnstarted(rows, txu, users);
    var after := Effect(rows, HandleRun(first, o, cfg).calls);
    FirstUnstartedSpec(rows, txu, users);
    var t := first.value;
    var p :| Linked(t, p, txu, users);
    var i :| 0 <= i < |rows| && rows[i] == t;
    EffectPointwise(rows, HandleRun(first, o, cfg).calls);
    if HandleRun(first, o, cfg).err.None? {
      SuccessfulPassState(rows, first, o, cfg, i);
    } else {
      FailedPassState(rows, first, o, cfg, i);
    }
    assert after[i].id == t.id;
    var x, u :| x in txu && u in users && x.torrentId == t.id && x.userId == u.id && u.priority == p;
    assert Linked(after[i], p, txu, users);
    assert after[i] in after;
    FirstUnstartedSpec(after, txu, users);
  }

  // ---------------------------------------------------------------------------
  // The handler
  // ---------------------------------------------------------------------------

  /** A call followed by the table after it: the effect of the calls grows one call at a time. */
  /** The table after two calls. */
  lemma EffectTwo(rows: seq<TorrentRow>, c: Call, d: Call)
    ensures Effect(rows, [c, d]) == Apply(Apply(rows, c), d)
  {
    calc {
      Effect(rows, [c, d]);
      { assert [c, d] == [c] + [d]; }
      Effect(rows, [c] + [d]);
      { EffectSnoc(rows, [c], d); }
      Apply(Effect(rows, [c]), d);
      { EffectOne(rows, c); }
      Apply(Apply(rows, c), d);
    }
  }

  /** The table after three calls. */
  lemma EffectThree(rows: seq<TorrentRow>, c: Call, d: Call, e: Call)
    ensures Effect(rows, [c, d, e]) == Apply(Apply(Apply(rows, c), d), e)
  {
    calc {
      Effect(rows, [c, d, e]);
      { assert [c, d, e] == [c, d] + [e]; }
      Effect(rows, [c, d] + [e]);
      { EffectSnoc(rows, [c, d], e); }
      Apply(Effect(rows, [c, d]), e);
      { EffectTwo(rows, c, d); }
      Apply(Apply(Apply(rows, c), d), e);
    }
  }

  lemma EffectReads(rows: seq<TorrentRow>, link: string)
    ensures Effect(rows, [ReadFirstUnstarted, ResolveTorrent(link)]) == rows
  {
    EffectOne(rows, ReadFirstUnstarted);
    EffectSnoc(rows, [ReadFirstUnstarted], ResolveTorrent(link));
    assert [ReadFirstUnstarted] + [ResolveTorrent(link)] == [ReadFirstUnstarted, ResolveTorrent(link)];
  }

  lemma EffectOne(rows: seq<TorrentRow>, c: Call)
    ensures Effect(rows, [c]) == Apply(rows, c)
  {
    EffectSnoc(rows, [], c);
    assert [] + [c] == [c];
  }

  /**
   * FileHandler: the repository it writes to and its settings. The loader,
   * the uploader and the clock answer through the Outcomes given to each
   * method; the logger and the progress callback are not modelled.
   */
  class FileHandler {
    const repository: Queries
    const loadDir: string
    const targetDomain: string
    const maxTorrentSize: Int64

    /** New: keeps the collaborators and settings it is given. */
    constructor (repository: Queries, loadDir: string, targetDomain: string, maxTorrentSize: Int64)
      ensures this.repository == repository && this.loadDir == loadDir
      ensures this.targetDomain == targetDomain && this.maxTorrentSize == maxTorrentSize
    {
      this.repository := repository;
      this.loadDir := loadDir;
      this.targetDomain := targetDomain;
      this.maxTorrentSize := maxTorrentSize;
    }

    /** The settings a pass uses. */
    function Settings(): (cfg: Config)
      ensures cfg.loadDir == loadDir && cfg.targetDomain == targetDomain && cfg.maxTorrentSize == maxTorrentSize
    {
      Config(loadDir, targetDomain, maxTorrentSize)
    }

    /** preLoadUpdateTorrentState: its calls and error are PreLoadRun's, and the table has had exactly those writes. */
    method PreLoadUpdateTorrentState(link: string, info: Info, o: Outcomes) returns (calls: seq<Call>, err: Option<Error>)
      modifies repository`torrents
      ensures Stage(calls, err) == PreLoadRun(link, info, o)
      ensures repository.torrents == Effect(old(repository.torrents), calls)
    {
      ghost var rows := repository.torrents;
      ghost var plan := PreLoadPlan(link, info, o);
      var e := repository.UpdateTorrentName(link, Some(info.bestName), o.faults.name);
      var nameWrite := Update(link, SetName(Some(info.bestName)), e.None?);
      assert nameWrite == plan[0];
      assert repository.torrents == Apply(rows, nameWrite);
      EffectOne(rows, nameWrite);
      if e.Some? {
        return [nameWrite], Some(Wrapped(NameWriteContext(link, info.bestName), e.value));
      }
      e := repository.UpdateTorrentSize(link, Some(info.length), o.faults.size);
      var sizeWrite := Update(link, SetSize(Some(info.length)), e.None?);
      assert sizeWrite == plan[1];
      assert repository.torrents == Apply(Apply(rows, nameWrite), sizeWrite);
      EffectTwo(rows, nameWrite, sizeWrite);
      if e.Some? {
        return [nameWrite, sizeWrite], Some(Wrapped(SizeWriteContext(link, info.length), e.value));
      }
      e := repository.UpdateTorrentStatus(link, Some(o.clock.started), None, None, o.faults.start);
      var startWrite := Update(link, SetStatus(Some(o.clock.started), None, None), e.None?);
      assert startWrite == plan[2];
      assert repository.torrents == Apply(Apply(Apply(rows, nameWrite), sizeWrite), startWrite);
      EffectThree(rows, nameWrite, sizeWrite, startWrite);
      calls := [nameWrite, sizeWrite, startWrite];
      if e.Some? {
        return calls, Some(Wrapped(StatusWriteContext(link, o.clock.startedText), e.value));
      }
      err := None;
    }

    /** loadTorrent: reads the first unstarted torrent, then follows LoadRun for what the read returned. */
    method LoadTorrent(o: Outcomes) returns (link: string, info: Option<Info>, calls: seq<Call>, err: Option<Error>)
      modifies repository`torrents
      ensures Loaded(link, info, Stage(calls, err)) ==
        LoadRun(ReadFirst(o.read, old(repository.torrents), repository.torrentXUser, repository.users), o, maxTorrentSize)
      ensures repository.torrents == Effect(old(repository.torrents), calls)
    {
      var first := repository.GetFirstUnstartedTorrent(o.read);
      link, info, calls, err := LoadRead(first, o);
    }

    /** loadTorrent once the read has returned first: the read call, then LoadRun's calls for it. */
    method LoadRead(first: Result<TorrentRow, Error>, o: Outcomes) returns (link: string, info: Option<Info>, calls: seq<Call>, err: Option<Error>)
      modifies repository`torrents
      ensures Loaded(link, info, Stage(calls, err)) == LoadRun(first, o, maxTorrentSize)
      ensures repository.torrents == Effect(old(repository.torrents), calls)
    {
      ghost var rows := repository.torrents;
      LoadRunEarly(first, o, maxTorrentSize);
      if first.Err? {
        calls := [ReadFirstUnstarted];
        EffectOne(rows, ReadFirstUnstarted);
        return "", None, calls, Some(Wrapped("h.torrentProvider.GetFirstUnstartedTorrent(ctx)", first.error));
      }
      link := first.value.torrentLink;
      var head := [ReadFirstUnstarted, ResolveTorrent(link)];
      EffectReads(rows, link);
      if o.resolved.Err? {
        return link, None, head, Some(Wrapped(ResolveContext(link), Foreign(o.resolved.error)));
      }
      var resolved := o.resolved.value;
      if resolved.length >= maxTorrentSize {
        return link, None, head, Some(MaxSize);
      }
      var preCalls, preErr := PreLoadUpdateTorrentState(link, resolved, o);
      EffectAppend(rows, head, preCalls);
      calls := head + preCalls;
      LoadRunResolved(first.value, resolved, o, maxTorrentSize);
      ghost var pre := Stage(preCalls, preErr);
      if preErr.Some? {
        err := Some(Wrapped(PreLoadContext(link), preErr.value));
        assert LoadAfterPreLoad(link, resolved, head, pre, o) == Loaded(link, None, Stage(calls, err));
        return link, None, calls, err;
      }
      EffectSnoc(rows, calls, Download(link));
      calls := calls + [Download(link)];
      if o.loaded.Some? {
        err := Some(Wrapped("failed to load torrent", Foreign(o.loaded.value)));
        assert LoadAfterPreLoad(link, resolved, head, pre, o) == Loaded(link, None, Stage(calls, err));
        return link, None, calls, err;
      }
      info, err := Some(resolved), None;
      assert LoadAfterPreLoad(link, resolved, head, pre, o) == Loaded(link, info, Stage(calls, err));
    }

    /** postLoadUpdateTorrentState: its calls and error are PostLoadRun's, and the table has had exactly those writes. */
    method PostLoadUpdateTorrentState(link: string, messageId: Int64, o: Outcomes) returns (calls: seq<Call>, err: Option<Error>)
      modifies repository`torrents
      ensures Stage(calls, err) == PostLoadRun(link, messageId, o)
      ensures repository.torrents == Effect(old(repository.torrents), calls)
    {
      ghost var rows := repository.torrents;
      var e := repository.UpdateTorrentMessageID(link, Some(messageId), o.faults.messageId);
      var idWrite := Update(link, SetMessageId(Some(messageId)), e.None?);
      EffectOne(rows, idWrite);
      if e.Some? {
        return [idWrite], Some(Wrapped(MessageIdWriteContext(link, messageId), e.value));
      }
      e := repository.UpdateTorrentStatus(link, None, Some(o.clock.finished), None, o.faults.finish);
      var finishWrite := Update(link, SetStatus(None, Some(o.clock.finished), None), e.None?);
      EffectTwo(rows, idWrite, finishWrite);
      calls := [idWrite, finishWrite];
      if e.Some? {
        return calls, Some(Wrapped(StatusWriteContext(link, o.clock.finishedText), e.value));
      }
      err := None;
    }

    /** uploadTorrent: its calls and error are UploadRun's, and the table has had exactly those writes. */
    method UploadTorrent(link: string, name: string, o: Outcomes) returns (calls: seq<Call>, err: Option<Error>)
      modifies repository`torrents
      ensures Stage(calls, err) == UploadRun(link, name, o, Settings())
      ensures repository.torrents == Effect(old(repository.torrents), calls)
    {
      ghost var rows := repository.torrents;
      var filePath := JoinPath(loadDir, name);
      calls := [Upload(filePath, targetDomain)];
      EffectOne(rows, Upload(filePath, targetDomain));
      if o.uploaded.Err? {
        return calls, Some(Wrapped(UploadContext(filePath, targetDomain), Foreign(o.uploaded.error)));
      }
      var postCalls, postErr := PostLoadUpdateTorrentState(link, o.uploaded.value, o);
      EffectAppend(rows, calls, postCalls);
      calls := calls + postCalls;
      if postErr.Some? {
        return calls, Some(Wrapped(PostLoadContext(link), postErr.value));
      }
      err := None;
    }

    /** torrentError: its calls and error are TorrentErrorRun's, and the table has had exactly that write. */
    method TorrentError(link: string, failure: Option<Error>, o: Outcomes) returns (calls: seq<Call>, err: Option<Error>)
      modifies repository`torrents
      ensures Stage(calls, err) == TorrentErrorRun(link, failure, o)
      ensures repository.torrents == Effect(old(repository.torrents), calls)
    {
      calls, err := [], None;
      if failure.Some? {
        ghost var rows := repository.torrents;
        var e := repository.UpdateTorrentStatus(link, None, Some(o.clock.failed), Some(Text(failure.value)), o.faults.errorStatus);
        calls := [ErrorWrite(link, failure.value, o)];
        EffectOne(rows, ErrorWrite(link, failure.value, o));
        if e.Some? {
          err := Some(Joined("h.torrentUpdater.UpdateTorrentStatus", link, failure.value, e.value));
        }
      }
    }

    /**
     * handle: one pass. Its calls and error are HandleRun's for what the
     * read returns on the store as it was, and the torrents table ends up
     * with exactly the writes of those calls.
     */
    method Handle(o: Outcomes) returns (calls: seq<Call>, err: Option<Error>)
      modifies repository`torrents
      ensures Stage(calls, err) ==
        HandleRun(ReadFirst(o.read, old(repository.torrents), repository.torrentXUser, repository.users), o, Settings())
      ensures repository.torrents == Effect(old(repository.torrents), calls)
    {
      ghost var rows := repository.torrents;
      var link, info, loadCalls, loadErr := LoadTorrent(o);
      calls := loadCalls;
      if loadErr.Some? {
        var failure := loadErr.value;
        if link != "" {
          var teCalls, statusErr := TorrentError(link, Some(failure), o);
          EffectAppend(rows, calls, teCalls);
          calls := calls + teCalls;
          if statusErr.Some? {
            failure := Joined("h.torrentError", link, failure, statusErr.value);
          }
        }
        return calls, Some(Wrapped("failed to load torrent", failure));
      }
      var upCalls, upErr := UploadTorrent(link, info.value.bestName, o);
      EffectAppend(rows, calls, upCalls);
      calls := calls + upCalls;
      if upErr.Some? {
        var failure := upErr.value;
        var teCalls, statusErr := TorrentError(link, Some(failure), o);
        EffectAppend(rows, calls, teCalls);
        calls := calls + teCalls;
        if statusErr.Some? {
          failure := Joined("h.torrentError", link, failure, statusErr.value);
        }
        return calls, Some(Wrapped("failed to upload torrent", failure));
      }
      err := None;
    }
  }
}
