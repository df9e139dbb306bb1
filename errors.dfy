/**
 * Go error values as the controller and the bot build them: leaf errors from
 * collaborators, and the wrappers made by fmt.Errorf with one or two `%w`
 * verbs. Text is what err.Error() returns; Is is errors.Is.
 */
module Errors {
  import opened Strconv

  datatype Error =
    | Driver(message: string)        // an error reported by the SQL driver or the database
    | NoRows                         // database/sql.ErrNoRows
    | Foreign(message: string)       // an error from a collaborator outside the model (torrent client, Telegram)
    | Num(numError: NumError)        // a *strconv.NumError
    | MaxSize                        // filehandler.ErrMaxSize
    | Wrapped(context: string, cause: Error)
      // fmt.Errorf(context + ": %w", cause)
    | Joined(call: string, link: string, cause: Error, statusErr: Error)
      // fmt.Errorf(call + "(ctx, %q, %w): %w", link, cause, statusErr)

  /** err.Error(). */
  function Text(e: Error): string
  {
    match e
    case Driver(m) => m
    case NoRows => "sql: no rows in result set"
    case Foreign(m) => m
    case Num(n) => NumErrorText(n)
    case MaxSize => "torrent size is too big"
    case Wrapped(c, cause) => c + ": " + Text(cause)
    case Joined(call, link, cause, statusErr) =>
      call + "(ctx, " + Quote(link) + ", " + Text(cause) + "): " + Text(statusErr)
  }

  /** errors.Is(e, target): e is target, or one of the errors it wraps through `%w` is. */
  predicate Is(e: Error, target: Error)
  {
    e == target ||
    match e
    case Wrapped(_, cause) => Is(cause, target)
    case Joined(_, _, cause, statusErr) => Is(cause, target) || Is(statusErr, target)
    case _ => false
  }

  /** sub occurs in s. */
  predicate Contains(s: string, sub: string)
  {
    exists i, j :: 0 <= i <= j <= |s| && s[i..j] == sub
  }

  /** Text found inside b is still found once a is put before b. */
  lemma ContainsAfter(a: string, b: string, sub: string)
    requires Contains(b, sub)
    ensures Contains(a + b, sub)
  {
    var i, j :| 0 <= i <= j <= |b| && b[i..j] == sub;
    assert (a + b)[|a| + i..|a| + j] == b[i..j];
  }

  /** Text found inside a is still found once c is put after a. */
  lemma ContainsBefore(a: string, c: string, sub: string)
    requires Contains(a, sub)
    ensures Contains(a + c, sub)
  {
    var i, j :| 0 <= i <= j <= |a| && a[i..j] == sub;
    assert (a + c)[i..j] == a[i..j];
  }

  /** The text of every error that e wraps appears inside e's own text. */
  lemma {:induction false} WrappedTextIsKept(e: Error, target: Error)
    requires Is(e, target)
    ensures Contains(Text(e), Text(target))
  {
    if e == target {
      assert Text(e)[0..|Text(e)|] == Text(target);
    } else {
      match e
      case Wrapped(c, cause) =>
        WrappedTextIsKept(cause, target);
        ContainsAfter(c + ": ", Text(cause), Text(target));
      case Joined(call, link, cause, statusErr) =>
        var head := call + "(ctx, " + Quote(link) + ", " + Text(cause) + "): ";
        if Is(cause, target) {
          WrappedTextIsKept(cause, target);
          ContainsAfter(call + "(ctx, " + Quote(link) + ", ", Text(cause), Text(target));
          ContainsBefore(call + "(ctx, " + Quote(link) + ", " + Text(cause), "): ", Text(target));
          ContainsBefore(head, Text(statusErr), Text(target));
        } else {
          WrappedTextIsKept(statusErr, target);
          ContainsAfter(head, Text(statusErr), Text(target));
        }
    }
  }
}
