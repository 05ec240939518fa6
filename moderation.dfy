/** The new-state computations of the two moderation actions: the ban-flag
    patch applied to the accounts and the removal of a deleted comment. */
module Moderation {
  import opened Records
  import Seqs

  /** The status sent to the backend's ban-status update ("banned" / "unbanned"). */
  datatype BanStatus = Banned | Unbanned

  /** The target status: the inverse of the flag the caller passes in. */
  function StatusToSend(isCurrentlyBanned: bool): (s: BanStatus)
    ensures s == Unbanned <==> isCurrentlyBanned
  {
    if isCurrentlyBanned then Unbanned else Banned
  }

  /** `prev.map(user => user.userId === userId ? { ...user, isBanned: banned } : user)`. */
  function SetBanned(users: seq<User>, userId: string, banned: bool): (r: seq<User>)
    ensures |r| == |users|
    ensures forall i :: 0 <= i < |users| ==> r[i] == users[i].(isBanned := r[i].isBanned)
    ensures forall i :: 0 <= i < |users| && users[i].userId == userId ==> r[i].isBanned == banned
    ensures forall i :: 0 <= i < |users| && users[i].userId != userId ==> r[i] == users[i]
  {
    seq(|users|, i requires 0 <= i < |users| =>
      if users[i].userId == userId then users[i].(isBanned := banned) else users[i])
  }

  /** Patching an id that no account has changes nothing. */
  lemma SetBannedAbsent(users: seq<User>, userId: string, banned: bool)
    requires forall i :: 0 <= i < |users| ==> users[i].userId != userId
    ensures SetBanned(users, userId, banned) == users
  {
  }

  /** Toggling account `k` twice, each time passing its current flag,
      restores it; when every account sharing its id had the same flag
      (in particular when ids are unique) the whole sequence is restored. */
  lemma ToggleTwiceRestores(users: seq<User>, k: nat)
    requires k < |users|
    ensures var id := users[k].userId;
            var once := SetBanned(users, id, !users[k].isBanned);
            var twice := SetBanned(once, id, !once[k].isBanned);
            twice[k] == users[k] &&
            ((forall j :: 0 <= j < |users| && users[j].userId == id ==> users[j].isBanned == users[k].isBanned)
               ==> twice == users)
  {
  }

  /** `prevComments.filter(comment => comment.commentId !== commentId)`. */
  function RemoveComment(comments: seq<Comment>, commentId: string): (r: seq<Comment>)
    ensures Seqs.IsSubsequence(r, comments)
    ensures forall i :: 0 <= i < |r| ==> r[i].commentId != commentId
    ensures forall i :: 0 <= i < |comments| && comments[i].commentId != commentId ==> comments[i] in r
    ensures forall i :: 0 <= i < |comments| && comments[i].commentId != commentId ==>
              multiset(r)[comments[i]] == multiset(comments)[comments[i]]
  {
    Seqs.FilterKeepsMultiplicity(comments, (c: Comment) => c.commentId != commentId);
    Seqs.Filter(comments, (c: Comment) => c.commentId != commentId)
  }

  /** No two comments share an id. */
  predicate UniqueCommentIds(comments: seq<Comment>)
  {
    forall i, j :: 0 <= i < j < |comments| ==> comments[i].commentId != comments[j].commentId
  }

  /** Removing an id that no comment has is a no-op. */
  lemma RemoveCommentAbsent(comments: seq<Comment>, commentId: string)
    requires forall i :: 0 <= i < |comments| ==> comments[i].commentId != commentId
    ensures RemoveComment(comments, commentId) == comments
  {
    Seqs.FilterKeepsAll(comments, (c: Comment) => c.commentId != commentId);
  }

  /** With unique ids, removing a present id drops exactly one comment. */
  lemma RemoveCommentUnique(comments: seq<Comment>, k: nat)
    requires UniqueCommentIds(comments) && k < |comments|
    ensures |RemoveComment(comments, comments[k].commentId)| == |comments| - 1
  {
    var id := comments[k].commentId;
    forall i | 0 <= i < |comments| && i != k ensures comments[i].commentId != id {
      if i < k { assert comments[i].commentId != comments[k].commentId; }
      else { assert comments[k].commentId != comments[i].commentId; }
    }
    Seqs.FilterDropsOne(comments, (c: Comment) => c.commentId != id, k);
  }
}
