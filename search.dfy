/** The console's client-side search: each section view keeps the items
    whose designated field, lower-cased, contains the lower-cased term. */
module Search {
  import opened Records
  import Text
  import Seqs

  /** `field.toLowerCase().includes(term.toLowerCase())`. */
  function Matches(field: string, term: string): (r: bool)
    ensures r <==> exists i :: Text.OccursAt(Text.ToLower(field), Text.ToLower(term), i)
    ensures term == "" ==> r
  {
    Text.ContainsEmpty(Text.ToLower(field));
    Text.Contains(Text.ToLower(field), Text.ToLower(term))
  }

  /** The items whose `field` matches `term`, in their original order. */
  function SearchFilter<T>(items: seq<T>, field: T -> string, term: string): (r: seq<T>)
    ensures Seqs.IsSubsequence(r, items)
    ensures forall i :: 0 <= i < |r| ==> Matches(field(r[i]), term)
    ensures forall i :: 0 <= i < |items| && Matches(field(items[i]), term) ==> items[i] in r
    ensures forall i :: 0 <= i < |items| && Matches(field(items[i]), term) ==>
              multiset(r)[items[i]] == multiset(items)[items[i]]
  {
    Seqs.FilterKeepsMultiplicity(items, x => Matches(field(x), term));
    Seqs.Filter(items, x => Matches(field(x), term))
  }

  /** An empty search term keeps every item. */
  lemma SearchEmptyTerm<T>(items: seq<T>, field: T -> string)
    ensures SearchFilter(items, field, "") == items
  {
    forall i | 0 <= i < |items| ensures Matches(field(items[i]), "") {
      Text.ContainsEmpty(Text.ToLower(field(items[i])));
    }
    Seqs.FilterKeepsAll(items, x => Matches(field(x), ""));
  }

  /** Two terms that lower-case to the same string select the same items. */
  lemma SearchCaseInsensitive<T>(items: seq<T>, field: T -> string, t1: string, t2: string)
    requires Text.ToLower(t1) == Text.ToLower(t2)
    ensures SearchFilter(items, field, t1) == SearchFilter(items, field, t2)
  {
    Seqs.FilterCongruent(items, x => Matches(field(x), t1), x => Matches(field(x), t2));
  }

  /** Searching for a term or for its lower-cased form gives the same view. */
  lemma SearchLowerCasedTerm<T>(items: seq<T>, field: T -> string, term: string)
    ensures SearchFilter(items, field, Text.ToLower(term)) == SearchFilter(items, field, term)
  {
    Text.ToLowerIdempotent(term);
    SearchCaseInsensitive(items, field, Text.ToLower(term), term);
  }

  /** `filteredUsers`: accounts whose username matches the term. */
  function FilterUsers(users: seq<User>, term: string): (r: seq<User>)
    ensures Seqs.IsSubsequence(r, users)
    ensures forall i :: 0 <= i < |r| ==> Matches(r[i].username, term)
    ensures forall i :: 0 <= i < |users| && Matches(users[i].username, term) ==> users[i] in r
    ensures forall i :: 0 <= i < |users| && Matches(users[i].username, term) ==>
              multiset(r)[users[i]] == multiset(users)[users[i]]
  {
    SearchFilter(users, (u: User) => u.username, term)
  }

  /** `filteredWatchlists`: watchlists whose name matches the term. */
  function FilterWatchlists(watchlists: seq<Watchlist>, term: string): (r: seq<Watchlist>)
    ensures Seqs.IsSubsequence(r, watchlists)
    ensures forall i :: 0 <= i < |r| ==> Matches(r[i].listName, term)
    ensures forall i :: 0 <= i < |watchlists| && Matches(watchlists[i].listName, term) ==> watchlists[i] in r
    ensures forall i :: 0 <= i < |watchlists| && Matches(watchlists[i].listName, term) ==>
              multiset(r)[watchlists[i]] == multiset(watchlists)[watchlists[i]]
  {
    SearchFilter(watchlists, (w: Watchlist) => w.listName, term)
  }

  /** `filteredComments`: comments whose text matches the term. */
  function FilterComments(comments: seq<Comment>, term: string): (r: seq<Comment>)
    ensures Seqs.IsSubsequence(r, comments)
    ensures forall i :: 0 <= i < |r| ==> Matches(r[i].comment, term)
    ensures forall i :: 0 <= i < |comments| && Matches(comments[i].comment, term) ==> comments[i] in r
    ensures forall i :: 0 <= i < |comments| && Matches(comments[i].comment, term) ==>
              multiset(r)[comments[i]] == multiset(comments)[comments[i]]
  {
    SearchFilter(comments, (c: Comment) => c.comment, term)
  }
}
