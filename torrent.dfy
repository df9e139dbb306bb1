/**
 * A queued torrent and its chat rendering (internal/torrent/torrent.go and
 * internal/torrent/torrentlist.go). internal/database/torrent.go declares the
 * same Torrent record, the same three status constants and the same two
 * String methods character for character; both packages are modelled by this
 * one module. The magnet-URI parser is a parameter: for a link it returns
 * None when the link parses and Some(message) when it does not.
 */
module Torrents {
  import opened Wrappers
  import opened Strconv

  const InQueue := "в очереди"
  const Downloading := "скачивается"
  const Loaded := "загружен"

  const EmptyListText := "У вас пока нет торрентов"
  const ListHeader := "Ваши торренты:\n"

  datatype Torrent = Torrent(link: string, status: string)

  /** The zero Torrent. */
  const NoTorrent := Torrent("", "")

  datatype TorrentParseError = TorrentParseError(message: string, link: string)

  /** The three statuses are distinct. */
  lemma StatusesDistinct()
    ensures InQueue != Downloading && InQueue != Loaded && Downloading != Loaded
  {
  }

  /** TorrentParseError.Error(). */
  function ParseErrorText(e: TorrentParseError): string
  {
    "torrent link " + Quote(e.link) + " is invalid: " + e.message
  }

  /** The rejected link can be read back from the error text: it is the quoted part after "torrent link ". */
  lemma ParseErrorNamesLink(e: TorrentParseError)
    ensures var text, n := ParseErrorText(e), |"torrent link "|;
      n + |Quote(e.link)| <= |text| && Unquote(text[n..n + |Quote(e.link)|]) == Some(e.link)
  {
    var text, n, q := ParseErrorText(e), |"torrent link "|, Quote(e.link);
    assert text[n..n + |q|] == q;
    UnquoteQuote(e.link);
  }

  /**
   * New: a link the parser rejects yields the zero Torrent and an error
   * carrying the link and the parser's message; an accepted link yields a
   * queued torrent with that link.
   */
  function New(link: string, magnetError: string -> Option<string>): (r: (Torrent, Option<TorrentParseError>))
    ensures r.1.Some? <==> magnetError(link).Some?
    ensures r.1.Some? ==> r.0 == NoTorrent && r.1.value.link == link && r.1.value.message == magnetError(link).value
    ensures r.1.None? ==> r.0.link == link && r.0.status == InQueue
  {
    match magnetError(link)
    case Some(message) => (NoTorrent, Some(TorrentParseError(message, link)))
    case None => (Torrent(link, InQueue), None)
  }

  /** Torrent.String: the link between backticks, " - ", the status. */
  function TorrentString(t: Torrent): string
  {
    "`" + t.link + "` - " + t.status
  }

  /** In the rendering of a torrent whose link holds no backtick, the first backtick after the opening one closes the link. */
  lemma ClosingBacktick(t: Torrent)
    requires '`' !in t.link
    ensures var s := TorrentString(t);
      |s| > |t.link| + 1 && s[|t.link| + 1] == '`' && forall j :: 1 <= j <= |t.link| ==> s[j] != '`'
  {
    var s := TorrentString(t);
    assert s == "`" + t.link + ("` - " + t.status);
    forall j | 1 <= j <= |t.link|
      ensures s[j] != '`'
    {
      assert s[j] == t.link[j - 1];
    }
  }

  /** Two torrents whose links hold no backtick render alike only when they are equal. */
  lemma TorrentStringInjective(a: Torrent, b: Torrent)
    requires '`' !in a.link && '`' !in b.link
    requires TorrentString(a) == TorrentString(b)
    ensures a == b
  {
    var pa, sa := "`" + a.link, "` - " + a.status;
    var pb, sb := "`" + b.link, "` - " + b.status;
    var s := pa + sa;
    assert s == TorrentString(a) == pb + sb;
    ClosingBacktick(a);
    ClosingBacktick(b);
    if |pa| != |pb| {
      assert false;
    }
    assert pa == s[..|pa|] == pb;
    assert sa == s[|pa|..] == sb;
    assert a.link == pa[1..] && b.link == pb[1..];
    assert a.status == sa[4..] && b.status == sb[4..];
  }

  /** One numbered entry: a line break, the number, ") ", the torrent. */
  function Item(k: int, t: Torrent): string
  {
    "\n" + FormatInt(k) + ") " + TorrentString(t)
  }

  /** The entries of tl numbered from k onwards, in list order. */
  function Numbered(tl: seq<Torrent>, k: int): string
  {
    if tl == [] then "" else Item(k, tl[0]) + Numbered(tl[1..], k + 1)
  }

  /** TorrentList.String, as a value: the empty text, or the header and the numbered entries. */
  function ListText(tl: seq<Torrent>): string
  {
    if tl == [] then EmptyListText else ListHeader + Numbered(tl, 1)
  }

  /** Numbering a concatenation: the entries of b continue from where those of a stop. */
  lemma {:induction false} NumberedAppend(a: seq<Torrent>, b: seq<Torrent>, k: int)
    ensures Numbered(a + b, k) == Numbered(a, k) + Numbered(b, k + |a|)
  {
    if a == [] {
      assert a + b == b;
    } else {
      var rest := a[1..];
      assert (a + b)[0] == a[0];
      assert (a + b)[1..] == rest + b;
      NumberedAppend(rest, b, k + 1);
      var item, left, right := Item(k, a[0]), Numbered(rest, k + 1), Numbered(b, k + |a|);
      assert Numbered(a + b, k) == item + (left + right);
      assert Numbered(a, k) == item + left;
      ConcatAssoc(item, left, right);
    }
  }

  /**
   * A non-empty list renders as the header, then for each element in list
   * order its number (index plus one) and its String(): the element at index
   * i sits between the entries before it and the entries after it.
   */
  lemma EntryAt(tl: seq<Torrent>, i: nat)
    requires i < |tl|
    ensures ListText(tl) == ListHeader + Numbered(tl[..i], 1) + Item(i + 1, tl[i]) + Numbered(tl[i + 1..], i + 2)
  {
    var before, after := tl[..i], tl[i + 1..];
    var rest := [tl[i]] + after;
    assert tl == before + rest;
    NumberedAppend(before, rest, 1);
    assert rest[1..] == after;
    var left, item, right := Numbered(before, 1), Item(i + 1, tl[i]), Numbered(after, i + 2);
    assert Numbered(rest, i + 1) == item + right;
    assert ListText(tl) == ListHeader + (left + (item + right));
    ConcatAssoc(left, item, right);
    ConcatAssoc(ListHeader, left + item, right);
    ConcatAssoc(ListHeader, left, item);
  }

  /** TorrentList.String: the builder loop of internal/torrent/torrentlist.go. */
  method TorrentListString(tl: seq<Torrent>) returns (s: string)
    ensures s == ListText(tl)
    ensures tl == [] ==> s == EmptyListText
    ensures tl != [] ==> |s| >= |ListHeader| && s[..|ListHeader|] == ListHeader
  {
    if |tl| == 0 {
      return EmptyListText;
    }
    var builder := ListHeader;
    var i := 0;
    while i < |tl|
      invariant 0 <= i <= |tl|
      invariant builder == ListHeader + Numbered(tl[..i], 1)
    {
      NumberedAppend(tl[..i], [tl[i]], 1);
      assert tl[..i + 1] == tl[..i] + [tl[i]];
      assert Numbered([tl[i]], 1 + i) == Item(i + 1, tl[i]) + Numbered([], i + 2);
      ConcatAssoc(ListHeader, Numbered(tl[..i], 1), Item(i + 1, tl[i]));
      builder := builder + Item(i + 1, tl[i]);
      i := i + 1;
    }
    assert tl[..i] == tl;
    s := builder;
  }
}
