/** The admin console's state: the three collections it loads once and then
    patches after each confirmed moderation action, the selected section and
    the search term. Backend calls are parameters giving their settled
    outcomes. */
module Dashboard {
  import opened Records
  import Enrichment
  import Moderation
  import Search
  import Views
  import Seqs

  /** A settled listing call: it threw, it resolved to a falsy response, or
      it resolved to a response carrying `data`. */
  datatype Response<T> = Threw | Absent | Data(data: T)

  /** The three collections the console holds. */
  datatype Snapshot = Snapshot(users: seq<User>, watchlists: seq<Watchlist>, comments: seq<Comment>)

  /** What the initial load installs: the listings, with the watchlists
      enriched, when all three responses are present; nothing otherwise. */
  function LoadedSnapshot(
    commentsRes: Response<seq<Comment>>,
    usersRes: Response<seq<User>>,
    watchlistRes: Response<seq<Watchlist>>,
    lookup: Enrichment.Lookups): (r: Option<Snapshot>)
    ensures r.Some? <==> commentsRes.Data? && usersRes.Data? && watchlistRes.Data?
    ensures r.Some? ==> r.value.users == usersRes.data && r.value.comments == commentsRes.data &&
                        r.value.watchlists == Enrichment.Enrich(watchlistRes.data, lookup)
  {
    match (commentsRes, usersRes, watchlistRes)
    case (Data(cs), Data(us), Data(ws)) => Some(Snapshot(us, Enrichment.Enrich(ws, lookup), cs))
    case _ => None
  }

  class Console {
    var users: seq<User>
    var watchlists: seq<Watchlist>
    var comments: seq<Comment>
    var section: Views.Section
    var searchTerm: string

    /** The console before the load: empty collections, the overview section, no search. */
    constructor ()
      ensures users == [] && watchlists == [] && comments == []
      ensures section == Views.DashboardSection && searchTerm == ""
    {
      users, watchlists, comments := [], [], [];
      section, searchTerm := Views.DashboardSection, "";
    }

    /** The three collections as one value. */
    function Current(): Snapshot
      reads this
    {
      Snapshot(users, watchlists, comments)
    }

    /** `fetchData`: replaces all three collections when every listing
        response is present, and leaves them as they were otherwise. */
    method FetchData(
      commentsRes: Response<seq<Comment>>,
      usersRes: Response<seq<User>>,
      watchlistRes: Response<seq<Watchlist>>,
      lookup: Enrichment.Lookups)
      modifies this
      ensures Current() == match LoadedSnapshot(commentsRes, usersRes, watchlistRes, lookup)
                           case Some(s) => s
                           case None => old(Current())
      ensures section == old(section) && searchTerm == old(searchTerm)
    {
      if watchlistRes.Data? {
        var enriched := Enrichment.Enrich(watchlistRes.data, lookup);
        if commentsRes.Data? && usersRes.Data? {
          comments := commentsRes.data;
          users := usersRes.data;
          watchlists := enriched;
        }
      }
    }

    /** `handleBanToggle`: asks the backend for the inverse of the flag the
        caller passes, and on success sets that flag on every account with
        the id; on failure nothing changes. Returns the status sent. */
    method HandleBanToggle(
      userId: string,
      isCurrentlyBanned: bool,
      updateBanStatus: (string, Moderation.BanStatus) -> bool)
      returns (sent: Moderation.BanStatus)
      modifies this`users
      ensures sent == Moderation.Unbanned <==> isCurrentlyBanned
      ensures users == if updateBanStatus(userId, sent)
                       then Moderation.SetBanned(old(users), userId, !isCurrentlyBanned)
                       else old(users)
    {
      sent := Moderation.StatusToSend(isCurrentlyBanned);
      var ok := updateBanStatus(userId, sent);
      if ok {
        users := Moderation.SetBanned(users, userId, !isCurrentlyBanned);
      }
    }

    /** `handleDeleteComment`: on a confirmed backend deletion removes every
        comment with the id; on failure nothing changes. */
    method HandleDeleteComment(
      listId: string,
      commentId: string,
      deleteCommentOnWatchlist: (string, string) -> bool)
      modifies this`comments
      ensures comments == if deleteCommentOnWatchlist(listId, commentId)
                          then Moderation.RemoveComment(old(comments), commentId)
                          else old(comments)
    {
      var ok := deleteCommentOnWatchlist(listId, commentId);
      if ok {
        comments := Moderation.RemoveComment(comments, commentId);
      }
    }

    /** The delete icon of a comment: deletes it only if the operator confirms. */
    method DeleteClicked(
      item: Comment,
      confirmed: bool,
      deleteCommentOnWatchlist: (string, string) -> bool)
      modifies this`comments
      ensures comments == if confirmed && deleteCommentOnWatchlist(item.watchlistId, item.commentId)
                          then Moderation.RemoveComment(old(comments), item.commentId)
                          else old(comments)
    {
      if confirmed {
        HandleDeleteComment(item.watchlistId, item.commentId, deleteCommentOnWatchlist);
      }
    }

    /** A sidebar click: selects the section. Only an actual change of
        section clears the search; re-selecting the shown section keeps it. */
    method SetSection(s: Views.Section)
      modifies this`section, this`searchTerm
      ensures section == s
      ensures searchTerm == if s == old(section) then old(searchTerm) else ""
    {
      if s != section {
        searchTerm := "";
      }
      section := s;
    }

    /** Typing in the search box. */
    method SetSearchTerm(term: string)
      modifies this`searchTerm
      ensures searchTerm == term
    {
      searchTerm := term;
    }

    /** The accounts listed in the users section. */
    function FilteredUsers(): (r: seq<User>)
      reads this
      ensures Seqs.IsSubsequence(r, users)
      ensures forall i :: 0 <= i < |r| ==> Search.Matches(r[i].username, searchTerm)
      ensures forall i :: 0 <= i < |users| && Search.Matches(users[i].username, searchTerm) ==>
                multiset(r)[users[i]] == multiset(users)[users[i]]
      ensures searchTerm == "" ==> r == users
    {
      Search.SearchEmptyTerm(users, (u: User) => u.username);
      Search.FilterUsers(users, searchTerm)
    }

    /** The watchlists listed in the watchlists section. */
    function FilteredWatchlists(): (r: seq<Watchlist>)
      reads this
      ensures Seqs.IsSubsequence(r, watchlists)
      ensures forall i :: 0 <= i < |r| ==> Search.Matches(r[i].listName, searchTerm)
      ensures forall i :: 0 <= i < |watchlists| && Search.Matches(watchlists[i].listName, searchTerm) ==>
                multiset(r)[watchlists[i]] == multiset(watchlists)[watchlists[i]]
      ensures searchTerm == "" ==> r == watchlists
    {
      Search.SearchEmptyTerm(watchlists, (w: Watchlist) => w.listName);
      Search.FilterWatchlists(watchlists, searchTerm)
    }

    /** The comments listed in the comments section. */
    function FilteredComments(): (r: seq<Comment>)
      reads this
      ensures Seqs.IsSubsequence(r, comments)
      ensures forall i :: 0 <= i < |r| ==> Search.Matches(r[i].comment, searchTerm)
      ensures forall i :: 0 <= i < |comments| && Search.Matches(comments[i].comment, searchTerm) ==>
                multiset(r)[comments[i]] == multiset(comments)[comments[i]]
      ensures searchTerm == "" ==> r == comments
    {
      Search.SearchEmptyTerm(comments, (c: Comment) => c.comment);
      Search.FilterComments(comments, searchTerm)
    }

    /** The overview's previews: the first three accounts, the first three
        watchlists and the first four comments. */
    function Previews(): (r: Snapshot)
      reads this
      ensures r.users <= users && |r.users| == if |users| < 3 then |users| else 3
      ensures r.watchlists <= watchlists && |r.watchlists| == if |watchlists| < 3 then |watchlists| else 3
      ensures r.comments <= comments && |r.comments| == if |comments| < 4 then |comments| else 4
    {
      Snapshot(
        Seqs.Take(users, Views.UsersPreviewSize),
        Seqs.Take(watchlists, Views.WatchlistsPreviewSize),
        Seqs.Take(comments, Views.CommentsPreviewSize))
    }
  }

  /** A user banned through the console: after the load, toggling an
      unbanned account against an accepting backend bans it. */
  method BanScenario()
  {
    var ann := User("Ann", "", "", [], [], "", "u1", false, false);
    var c := new Console();
    c.FetchData(Data([]), Data([ann]), Data([]), (i: nat, t: string) => Enrichment.Failed);
    assert c.users == [ann];
    var sent := c.HandleBanToggle("u1", false, (id: string, s: Moderation.BanStatus) => true);
    assert sent == Moderation.Banned;
    assert c.users[0] == ann.(isBanned := true);
  }

  /** A watchlist whose first-title lookup fails gets the fallback poster. */
  method FallbackScenario()
  {
    var w1 := Watchlist("w1", "Favourites", "u1", "Ann", [], [], ["t1"], [], true, None);
    var c := new Console();
    c.FetchData(Data([]), Data([]), Data([w1]), (i: nat, t: string) => Enrichment.Failed);
    assert c.watchlists == [w1.(posterUrl := Some(FallbackTitleImage))];
  }

  /** A load with one listing missing keeps the console empty. */
  method PartialLoadScenario()
  {
    var w1 := Watchlist("w1", "Favourites", "u1", "Ann", [], [], [], [], true, None);
    var c := new Console();
    c.FetchData(Absent, Data([]), Data([w1]), (i: nat, t: string) => Enrichment.Failed);
    assert c.watchlists == [] && c.users == [] && c.comments == [];
  }
}
