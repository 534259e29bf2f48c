/**
 * The objects the forum client hands to the scraper, reduced to the attributes
 * the scraper reads. An attribute whose read may raise is an Option: None is
 * the raising read, or, for `body`, the value None.
 */
module Praw {
  import opened Wrappers

  /** The award mapping of a comment (award type to count); never inspected. */
  type Gildings = map<string, int>

  /** What `comment.author` turns out to be when it is probed. */
  datatype Author =
      /** `comment.author` is None: the account was deleted. */
    | Missing
      /** `is_suspended` can be read and is not None (False included); such an
          author is always skipped, so its other attributes are never read. */
    | Flagged(isSuspended: bool)
      /** An account without a readable `is_suspended`; each of the five reads
          `retrieveUser` performs may raise on its own. */
    | Account(id: Option<string>, commentKarma: Option<int>, linkKarma: Option<int>,
              createdUtc: Option<real>, isGold: Option<bool>)

  datatype Comment = Comment(
    id: string,
    body: Option<string>,
    score: int,
    authorFullname: string,
    gilded: int,
    gildings: Gildings,
    author: Author)

  /** A submission with its comment tree already fully expanded and flattened. */
  datatype Submission = Submission(id: string, comments: seq<Comment>)

  /** `author_fullname[3:]` with Python's slice semantics: the fullname with its
      three-character kind prefix ("t2_") cut off, and "" when it is shorter. */
  function AuthorKey(fullname: string): (key: string)
    ensures |fullname| >= 3 ==> fullname == fullname[..3] + key
    ensures |fullname| < 3 ==> key == ""
  {
    if |fullname| >= 3 then fullname[3..] else ""
  }

  /** The fullname praw gives an account with the given id. */
  function Fullname(id: string): string
  {
    "t2_" + id
  }

  /** The comment's fullname and its author's id name the same account. The
      forum guarantees this; the scraper relies on it without checking, since it
      looks authors up by one and stores them under the other. */
  predicate Consistent(c: Comment)
  {
    c.author.Account? && c.author.id.Some? ==> AuthorKey(c.authorFullname) == c.author.id.value
  }

  lemma FullnameKey(id: string)
    ensures AuthorKey(Fullname(id)) == id
  {
  }
}
