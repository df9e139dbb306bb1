/**
 * The in-memory torrent store used before the SQL backend
 * (internal/database/database.go): a map from a user name to that user's
 * list of torrents. Reading a missing key yields the empty list, as indexing
 * a Go map does.
 */
module InMemoryDatabase {
  import opened Wrappers
  import opened Errors
  import opened Torrents

  /** cache[user] in Go: the stored list, or the empty list for an unknown user. */
  function ListOf(cache: map<string, seq<Torrent>>, user: string): seq<Torrent>
  {
    if user in cache then cache[user] else []
  }

  /** The cache after appending a queued torrent for link to user's list. */
  function Added(cache: map<string, seq<Torrent>>, user: string, link: string): (r: map<string, seq<Torrent>>)
    ensures ListOf(r, user) == ListOf(cache, user) + [Torrent(link, InQueue)]
    ensures forall other :: other != user ==> ListOf(r, other) == ListOf(cache, other)
    ensures r.Keys == cache.Keys + {user}
  {
    cache[user := ListOf(cache, user) + [Torrent(link, InQueue)]]
  }

  /** The cache after adding the links for user one after the other. */
  function AddedAll(cache: map<string, seq<Torrent>>, user: string, links: seq<string>): map<string, seq<Torrent>>
  {
    if links == [] then cache else Added(AddedAll(cache, user, links[..|links| - 1]), user, links[|links| - 1])
  }

  /** A queued torrent for each link, in the order of the links. */
  function Queued(links: seq<string>): (tl: seq<Torrent>)
    ensures |tl| == |links|
    ensures forall i :: 0 <= i < |links| ==> tl[i] == Torrent(links[i], InQueue)
  {
    seq(|links|, i requires 0 <= i < |links| => Torrent(links[i], InQueue))
  }

  /**
   * Successive additions keep insertion order: after adding the links one by
   * one, the user's list is the old list followed by one queued torrent per
   * link in the order they were added, and every other user's list is as it was.
   */
  lemma {:induction false} AddedAllKeepsOrder(cache: map<string, seq<Torrent>>, user: string, links: seq<string>)
    ensures ListOf(AddedAll(cache, user, links), user) == ListOf(cache, user) + Queued(links)
    ensures forall other :: other != user ==> ListOf(AddedAll(cache, user, links), other) == ListOf(cache, other)
  {
    if links == [] {
      assert Queued(links) == [];
    } else {
      var front := links[..|links| - 1];
      AddedAllKeepsOrder(cache, user, front);
      assert Queued(links) == Queued(front) + [Torrent(links[|links| - 1], InQueue)];
    }
  }

  class Database {
    var cache: map<string, seq<Torrent>>

    /** New: an empty cache. */
    constructor ()
      ensures cache == map[]
    {
      cache := map[];
    }

    /** AddTorrent: appends one queued torrent to the user's list and never fails. */
    method AddTorrent(userName: string, link: string) returns (err: Option<Error>)
      modifies this
      ensures err == None
      ensures cache == Added(old(cache), userName, link)
    {
      cache := cache[userName := ListOf(cache, userName) + [Torrent(link, InQueue)]];
      err := None;
    }

    /** GetTorrents: the user's list, empty for an unknown user; never fails. */
    method GetTorrents(userName: string) returns (tl: seq<Torrent>, err: Option<Error>)
      ensures err == None
      ensures tl == ListOf(cache, userName)
      ensures userName !in cache ==> tl == []
    {
      if userName in cache {
        tl := cache[userName];
      } else {
        tl := [];
      }
      err := None;
    }
  }

  /** A fresh store followed by additions lists exactly the added links for that user, in order. */
  lemma FreshStoreListsAdditions(user: string, links: seq<string>)
    ensures ListOf(AddedAll(map[], user, links), user) == Queued(links)
  {
    AddedAllKeepsOrder(map[], user, links);
  }
}
