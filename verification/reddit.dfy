/**
 * The forum (Reddit) items the bot reads. A listing or stream is a sequence of
 * items, newest first for listings; a listing requested with `limit=100` yields
 * at most the first `ListingLimit` of them.
 */
module Reddit {
  import opened Wrappers

  /** A comment; `author` is `None` for a deleted account. */
  datatype Comment = Comment(author: Option<string>, body: string, createdUtc: int, permalink: string, linkId: string)

  /** A submission with its comment thread as loaded by `post.load()`. */
  datatype Submission = Submission(
    id: string,
    createdUtc: int,
    author: Option<string>,
    title: string,
    url: string,
    selftext: string,
    flair: Option<string>,
    thread: seq<Comment>)

  const ListingLimit: nat := 100

  /** What a `limit=100` listing yields of a newest-first feed. */
  function Listing<T>(feed: seq<T>): (items: seq<T>)
    ensures |items| <= ListingLimit
    ensures |items| <= |feed| && items == feed[..|items|]
    ensures |feed| <= ListingLimit ==> items == feed
  {
    if |feed| <= ListingLimit then feed else feed[..ListingLimit]
  }

  /** `x.author and x.author.name in names`. */
  predicate AuthoredByOneOf(author: Option<string>, names: set<string>) {
    author.Some? && author.value in names
  }
}
