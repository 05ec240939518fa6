/** Read-only projections the console derives from its state: the admin's
    avatar, the dashboard previews and the section header. */
module Views {
  import opened Records
  import Text
  import Seqs

  /** `users.find(user => user.userId === id)`; the id is None when the
      stored credential does not decode. */
  function FindUser(users: seq<User>, userId: Option<string>): (r: Option<User>)
    ensures r.Some? <==> userId.Some? && exists i :: 0 <= i < |users| && users[i].userId == userId.value
    ensures r.Some? ==> exists i :: 0 <= i < |users| && users[i] == r.value && users[i].userId == userId.value &&
                          forall j :: 0 <= j < i ==> users[j].userId != userId.value
    decreases |users|
  {
    if userId.None? || users == [] then None
    else if users[0].userId == userId.value then Some(users[0])
    else
      var r := FindUser(users[1..], userId);
      assert forall i :: 1 <= i < |users| ==> users[i] == users[1..][i - 1];
      r
  }

  /** `signedUrl || default`: an account's picture, or the default when empty. */
  function AvatarOrDefault(signedUrl: string): (r: string)
    ensures r != ""
    ensures signedUrl != "" ==> r == signedUrl
    ensures signedUrl == "" ==> r == DefaultProfileImage
  {
    if signedUrl != "" then signedUrl else DefaultProfileImage
  }

  /** `adminProfile?.signedUrl || default`: the picture of the first account
      carrying the admin's id, or the default. */
  function AdminProfilePicture(users: seq<User>, adminId: Option<string>): (r: string)
    ensures r != ""
    ensures (adminId.None? || forall i :: 0 <= i < |users| ==> users[i].userId != adminId.value) ==>
              r == DefaultProfileImage
    ensures forall k :: 0 <= k < |users| && adminId == Some(users[k].userId) &&
                        (forall j :: 0 <= j < k ==> users[j].userId != users[k].userId) ==>
              r == AvatarOrDefault(users[k].signedUrl)
  {
    match FindUser(users, adminId)
    case Some(u) => AvatarOrDefault(u.signedUrl)
    case None => DefaultProfileImage
  }

  /** How many items of each collection the dashboard overview shows. */
  const UsersPreviewSize: nat := 3
  const WatchlistsPreviewSize: nat := 3
  const CommentsPreviewSize: nat := 4

  /** The sidebar sections of the console. */
  datatype Section = DashboardSection | UsersSection | WatchlistsSection | CommentsSection

  /** The section's identifier as the code spells it. */
  function SectionName(s: Section): (r: string)
    ensures r != "" && Text.ToLower(r) == r
  {
    match s
    case DashboardSection => "dashboard"
    case UsersSection => "users"
    case WatchlistsSection => "watchlists"
    case CommentsSection => "comments"
  }

  /** The header title: the section name with its first letter upper-cased. */
  function HeaderTitle(s: Section): (r: string)
    ensures Text.ToLower(r) == SectionName(s)
    ensures 'A' <= r[0] <= 'Z'
  {
    Text.CapitalizeIgnoringCase(SectionName(s));
    Text.Capitalize(SectionName(s))
  }

  /** The header title of each section is the label of its sidebar entry. */
  lemma HeaderTitleIsSidebarLabel()
    ensures HeaderTitle(DashboardSection) == "Dashboard"
    ensures HeaderTitle(UsersSection) == "Users"
    ensures HeaderTitle(WatchlistsSection) == "Watchlists"
    ensures HeaderTitle(CommentsSection) == "Comments"
  {
  }
}
