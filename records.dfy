/** The three record shapes the admin console receives from the backend
    (src/pages/Dashboard/dashboard.tsx, interfaces CommentData, UserData and
    WatchlistData), the image paths it falls back to, and an Option type. */
module Records {

  /** A value that may be absent (`undefined` in the console's code). */
  datatype Option<+T> = None | Some(value: T)

  /** Image shown for a watchlist whose poster cannot be resolved. */
  const FallbackTitleImage: string := "/src/assets/Images/default-title-image.png"

  /** Image shown for an account with no display picture. */
  const DefaultProfileImage: string := "/src/assets/Images/default-profile.jpg"

  /** A comment posted on a watchlist. */
  datatype Comment = Comment(
    commentId: string,
    comment: string,
    datePosted: string,
    userId: string,
    username: string,
    watchlistId: string,
    watchlistName: string)

  /** An account. Only `isBanned` is ever changed by the console. */
  datatype User = User(
    username: string,
    email: string,
    biography: string,
    preferredGenres: seq<string>,
    friends: seq<string>,
    signedUrl: string,
    userId: string,
    isBanned: bool,
    isAdmin: bool)

  /** A watchlist; `posterUrl` is absent in a listing and set by enrichment. */
  datatype Watchlist = Watchlist(
    listId: string,
    listName: string,
    userId: string,
    username: string,
    comments: seq<string>,
    likes: seq<string>,
    titles: seq<string>,
    collaborators: seq<string>,
    isPublic: bool,
    posterUrl: Option<string>)
}
