/**
 * The `Scraper` object: fields updated in place by its methods, each method
 * proved to move the object's state exactly as the matching function of
 * module Collection does.
 */
module Script {
  import opened Wrappers
  import opened Praw
  import opened Collection
  import CollectionFacts

  class Scraper {
    /** The ranked listing of the subreddit, as the forum client returns it. */
    const subreddit: seq<Submission>

    var ids: seq<string>
    var commentdata: CommentTable
    var author: AuthorTable
    var gildings: GildTable
    var checkpoint: int
    var interval: int
    var minimum: int
    /** The contents of the three CSV files, None until the first flush. */
    var saved: Option<Snapshot>

    function View(): Collection.State
      reads this
    {
      State(ids, commentdata, author, gildings, checkpoint, interval, minimum, saved)
    }

    ghost predicate Valid()
      reads this
    {
      Inv(View())
    }

    constructor Open(cfg: Config, listing: seq<Submission>)
      ensures Valid() && View() == Initial(cfg) && subreddit == listing
    {
      subreddit := listing;
      ids := [];
      checkpoint, interval, minimum := cfg.checkpoint, cfg.interval, cfg.minimum;
      commentdata := CommentTable([], [], [], []);
      gildings := GildTable([], [], []);
      author := AuthorTable([], [], [], [], []);
      saved := None;
    }

    /** `__init__`: None when the configuration check ends the program. */
    static method Init(checkpoint: Option<int>, minimum: Option<int>, listing: seq<Submission>)
      returns (r: Option<Scraper>)
      ensures r.None? <==> Configure(checkpoint, minimum).None?
      ensures r.Some? ==> fresh(r.value) && r.value.Valid() && r.value.subreddit == listing &&
                          r.value.View() == Initial(Configure(checkpoint, minimum).value)
    {
      var cp := checkpoint;
      var iv := checkpoint;
      var m := minimum;
      if cp.None? {
        cp := Some(DefaultCheckpoint);
        iv := Some(DefaultCheckpoint);
      }
      if m.None? {
        m := Some(DefaultMinimum);
      }
      if m.value < cp.value {
        return None;
      }
      var s := new Scraper.Open(Config(cp.value, iv.value, m.value), listing);
      return Some(s);
    }

    /** `retrieveUser`: ok is false when one of the reads raised. */
    method RetrieveUser(comment: Comment) returns (ok: bool)
      modifies this`author
      ensures UserRead(author, ok) == ReadUser(old(author), comment.author)
    {
      match comment.author
      case Account(id, ck, lk, cu, gold) =>
        if id.None? { return false; }
        author := author.(authorIds := author.authorIds + [id.value]);
        if ck.None? { return false; }
        author := author.(commentKarma := author.commentKarma + [ck.value]);
        if lk.None? { return false; }
        author := author.(linkKarma := author.linkKarma + [lk.value]);
        if cu.None? { return false; }
        author := author.(createdUtc := author.createdUtc + [cu.value]);
        if gold.None? { return false; }
        author := author.(isPremium := author.isPremium + [gold.value]);
        return true;
      case _ =>
        return false;
    }

    /** `retrieveComment`. */
    method RetrieveComment(comment: Comment)
      requires Valid()
      modifies this`author, this`commentdata, this`gildings
      ensures Valid() && View() == IngestComment(old(View()), comment)
    {
      CollectionFacts.IngestKeepsInv(View(), comment);
      if comment.author.Flagged? || comment.author.Missing? || comment.body.None? {
        return;
      }
      var key := AuthorKey(comment.authorFullname);
      if key !in author.authorIds {
        var ok := RetrieveUser(comment);
        if !ok {
          return;
        }
      }
      commentdata := CommentTable(commentdata.bodies + [comment.body.value],
                                  commentdata.upvotes + [comment.score],
                                  commentdata.ids + [comment.id],
                                  commentdata.authorIds + [key]);
      if comment.gilded > 0 {
        gildings := GildTable(gildings.commentIds + [comment.id],
                              gildings.gilds + [comment.gildings],
                              gildings.numGilds + [comment.gilded]);
      }
    }

    /** `save_files`: the flag stop stands for `sys.exit`. */
    method SaveFiles() returns (d: Decision)
      requires Valid()
      modifies this`checkpoint, this`saved
      ensures Valid() && (View(), d) == Save(old(View()))
    {
      var length := |commentdata.ids|;
      var flush := length >= checkpoint;
      if flush {
        saved := Some(Snapshot(commentdata, author, gildings));
        checkpoint := checkpoint + interval;
      }
      d := Decision(flush, length > minimum);
    }

    /** `addTo`: every submission of the listing not seen before, each followed by
        `save_files`, until the listing runs out or `save_files` stops the run. */
    method AddTo() returns (outcome: Outcome)
      requires Valid()
      modifies this`ids, this`author, this`commentdata, this`gildings, this`checkpoint, this`saved
      ensures Valid() && RunResult(View(), outcome) == Run(old(View()), subreddit)
    {
      var i := 0;
      while i < |subreddit|
        invariant 0 <= i <= |subreddit|
        invariant Valid()
        invariant Run(old(View()), subreddit) == Run(View(), subreddit[i..])
      {
        var submission := subreddit[i];
        ghost var before := View();
        assert subreddit[i..][0] == submission && subreddit[i..][1..] == subreddit[i + 1..];
        if submission.id in ids {
          assert Visit(before, submission) == Seen;
        } else {
          CollectionFacts.UniqueAppend(ids, submission.id);
          ids := ids + [submission.id];
          var allComments := submission.comments;
          ghost var start := View();
          var j := 0;
          while j < |allComments|
            invariant 0 <= j <= |allComments|
            invariant Valid() && ids == start.ids
            invariant IngestAll(start, allComments) == IngestAll(View(), allComments[j..])
          {
            assert allComments[j..][0] == allComments[j];
            assert allComments[j..][1..] == allComments[j + 1..];
            RetrieveComment(allComments[j]);
            j := j + 1;
          }
          assert View() == IngestAll(start, allComments);
          var d := SaveFiles();
          assert Visit(before, submission) == Processed(View(), d);
          if d.stop {
            return Stopped;
          }
        }
        i := i + 1;
      }
      return Exhausted;
    }
  }
}
