/**
 * The collection-and-checkpoint engine of the scraper as a function of its
 * state: the seen-submission list, the three column-oriented tables, and the
 * checkpoint counters. The class `Script.Scraper` mutates fields holding the
 * same values and is proved to follow these functions step by step.
 */
module Collection {
  import opened Wrappers
  import opened Praw

  const DefaultCheckpoint: int := 10000
  const DefaultMinimum: int := 200000

  /** `commentdata`: four parallel columns, one entry per accepted comment. */
  datatype CommentTable = CommentTable(
    bodies: seq<string>, upvotes: seq<int>, ids: seq<string>, authorIds: seq<string>)
  {
    predicate Aligned()
    {
      |bodies| == |ids| && |upvotes| == |ids| && |authorIds| == |ids|
    }
  }

  /** `author`: five parallel columns, appended one at a time, so a failed read
      leaves them with different lengths. */
  datatype AuthorTable = AuthorTable(
    authorIds: seq<string>, commentKarma: seq<int>, linkKarma: seq<int>,
    createdUtc: seq<real>, isPremium: seq<bool>)
  {
    predicate Aligned()
    {
      |commentKarma| == |authorIds| && |linkKarma| == |authorIds| &&
      |createdUtc| == |authorIds| && |isPremium| == |authorIds|
    }
  }

  /** `gildings`: three parallel columns, one entry per accepted gilded comment. */
  datatype GildTable = GildTable(commentIds: seq<string>, gilds: seq<Gildings>, numGilds: seq<int>)
  {
    predicate Aligned()
    {
      |gilds| == |commentIds| && |numGilds| == |commentIds|
    }
  }

  /** What the three CSV files hold: each flush overwrites them with the whole tables. */
  datatype Snapshot = Snapshot(comments: CommentTable, authors: AuthorTable, gildings: GildTable)

  datatype Config = Config(checkpoint: int, interval: int, minimum: int)

  datatype State = State(
    ids: seq<string>,
    comments: CommentTable,
    authors: AuthorTable,
    gildings: GildTable,
    checkpoint: int,
    interval: int,
    minimum: int,
    saved: Option<Snapshot>)

  /** The decision `save_files` takes: write the files, and end the run. */
  datatype Decision = Decision(flush: bool, stop: bool)

  /** The constructor's defaults and its configuration check; None is the
      `sys.exit` taken when the minimum is below the checkpoint. */
  function Configure(checkpoint: Option<int>, minimum: Option<int>): (r: Option<Config>)
    ensures checkpoint.None? && r.Some? ==>
              r.value.checkpoint == DefaultCheckpoint && r.value.interval == DefaultCheckpoint
    ensures checkpoint.Some? && r.Some? ==>
              r.value.checkpoint == checkpoint.value && r.value.interval == checkpoint.value
    ensures minimum.None? && r.Some? ==> r.value.minimum == DefaultMinimum
    ensures minimum.Some? && r.Some? ==> r.value.minimum == minimum.value
    ensures r.Some? ==> r.value.minimum >= r.value.checkpoint
    ensures r.None? <==>
              (if minimum.Some? then minimum.value else DefaultMinimum) <
              (if checkpoint.Some? then checkpoint.value else DefaultCheckpoint)
  {
    var cp := if checkpoint.None? then DefaultCheckpoint else checkpoint.value;
    var iv := if checkpoint.None? then DefaultCheckpoint else checkpoint.value;
    var m := if minimum.None? then DefaultMinimum else minimum.value;
    if m < cp then None else Some(Config(cp, iv, m))
  }

  /** The state right after construction: every table empty, nothing seen, nothing written. */
  function Initial(cfg: Config): (s: State)
    ensures s.ids == [] && s.saved.None?
    ensures s.comments == CommentTable([], [], [], []) && s.authors == AuthorTable([], [], [], [], []) &&
            s.gildings == GildTable([], [], [])
    ensures s.checkpoint == cfg.checkpoint && s.interval == cfg.interval && s.minimum == cfg.minimum
    ensures Inv(s) && Linked(s)
  {
    State([], CommentTable([], [], [], []), AuthorTable([], [], [], [], []), GildTable([], [], []),
          cfg.checkpoint, cfg.interval, cfg.minimum, None)
  }

  /** The skip policy: no author, no body, or a readable `is_suspended` of any
      value other than None (the test is against None, so a readable False also skips). */
  predicate Skipped(c: Comment)
  {
    c.author.Flagged? || c.author.Missing? || c.body.None?
  }

  /** How many of the five author reads (id, comment karma, link karma, creation
      time, gold status, in that order) succeed before the first one raises. */
  function ReadableAttributes(a: Author): (n: nat)
    ensures n <= 5
    ensures n > 0 ==> a.Account? && a.id.Some?
    ensures n > 1 ==> a.commentKarma.Some?
    ensures n > 2 ==> a.linkKarma.Some?
    ensures n > 3 ==> a.createdUtc.Some?
    ensures n > 4 ==> a.isGold.Some?
    ensures (a.Account? && a.id.Some? && a.commentKarma.Some? && a.linkKarma.Some? &&
             a.createdUtc.Some? && a.isGold.Some?) ==> n == 5
    ensures !a.Account? ==> n == 0
    ensures a.Account? ==>
              && (n == 0 ==> a.id.None?)
              && (n == 1 ==> a.commentKarma.None?)
              && (n == 2 ==> a.linkKarma.None?)
              && (n == 3 ==> a.createdUtc.None?)
              && (n == 4 ==> a.isGold.None?)
  {
    match a
    case Account(id, ck, lk, cu, gold) =>
      if id.None? then 0
      else if ck.None? then 1
      else if lk.None? then 2
      else if cu.None? then 3
      else if gold.None? then 4
      else 5
    case _ => 0
  }

  datatype UserRead = UserRead(table: AuthorTable, ok: bool)

  /** `retrieveUser`: append the author's attributes column by column; the first
      read that raises abandons the rest (ok is false) but keeps what was appended. */
  function ReadUser(t: AuthorTable, a: Author): (r: UserRead)
    ensures r.ok <==> ReadableAttributes(a) == 5
    ensures var n := ReadableAttributes(a);
            && r.table.authorIds == t.authorIds + (if n > 0 then [a.id.value] else [])
            && r.table.commentKarma == t.commentKarma + (if n > 1 then [a.commentKarma.value] else [])
            && r.table.linkKarma == t.linkKarma + (if n > 2 then [a.linkKarma.value] else [])
            && r.table.createdUtc == t.createdUtc + (if n > 3 then [a.createdUtc.value] else [])
            && r.table.isPremium == t.isPremium + (if n > 4 then [a.isGold.value] else [])
    ensures r.ok && t.Aligned() ==> r.table.Aligned()
  {
    match a
    case Account(id, ck, lk, cu, gold) =>
      if id.None? then UserRead(t, false) else
      var t1 := t.(authorIds := t.authorIds + [id.value]);
      if ck.None? then UserRead(t1, false) else
      var t2 := t1.(commentKarma := t1.commentKarma + [ck.value]);
      if lk.None? then UserRead(t2, false) else
      var t3 := t2.(linkKarma := t2.linkKarma + [lk.value]);
      if cu.None? then UserRead(t3, false) else
      var t4 := t3.(createdUtc := t3.createdUtc + [cu.value]);
      if gold.None? then UserRead(t4, false) else
      UserRead(t4.(isPremium := t4.isPremium + [gold.value]), true)
    case _ => UserRead(t, false)
  }

  /** A comment that is not skipped and whose author is either known under its
      fullname-derived key or can be read in full. */
  predicate Accepted(s: State, c: Comment)
  {
    !Skipped(c) &&
    (AuthorKey(c.authorFullname) in s.authors.authorIds || ReadableAttributes(c.author) == 5)
  }

  /** Every column of every table of `s` is a prefix of the same column in `r`:
      rows are only ever appended. */
  predicate Grows(s: State, r: State)
  {
    && s.comments.bodies <= r.comments.bodies && s.comments.upvotes <= r.comments.upvotes
    && s.comments.ids <= r.comments.ids && s.comments.authorIds <= r.comments.authorIds
    && s.authors.authorIds <= r.authors.authorIds && s.authors.commentKarma <= r.authors.commentKarma
    && s.authors.linkKarma <= r.authors.linkKarma && s.authors.createdUtc <= r.authors.createdUtc
    && s.authors.isPremium <= r.authors.isPremium
    && s.gildings.commentIds <= r.gildings.commentIds && s.gildings.gilds <= r.gildings.gilds
    && s.gildings.numGilds <= r.gildings.numGilds
  }

  /** Ingesting comments touches only the three tables. */
  predicate SameControl(s: State, r: State)
  {
    r.ids == s.ids && r.checkpoint == s.checkpoint && r.interval == s.interval &&
    r.minimum == s.minimum && r.saved == s.saved
  }

  /** The comment row and, when the comment is gilded, the gilding row. */
  function Record(s: State, c: Comment, key: string): State
    requires c.body.Some?
  {
    var cs := CommentTable(s.comments.bodies + [c.body.value], s.comments.upvotes + [c.score],
                           s.comments.ids + [c.id], s.comments.authorIds + [key]);
    var gs := if c.gilded > 0
              then GildTable(s.gildings.commentIds + [c.id], s.gildings.gilds + [c.gildings],
                             s.gildings.numGilds + [c.gilded])
              else s.gildings;
    s.(comments := cs, gildings := gs)
  }

  /** `retrieveComment`. */
  function IngestComment(s: State, c: Comment): (r: State)
    ensures SameControl(s, r) && Grows(s, r)
    ensures Skipped(c) ==> r == s
    ensures !Skipped(c) && AuthorKey(c.authorFullname) in s.authors.authorIds ==> r.authors == s.authors
    ensures !Skipped(c) && AuthorKey(c.authorFullname) !in s.authors.authorIds ==>
              r.authors == ReadUser(s.authors, c.author).table
    ensures !Accepted(s, c) ==> r.comments == s.comments && r.gildings == s.gildings
    ensures Accepted(s, c) ==>
              && r.comments.ids == s.comments.ids + [c.id]
              && r.comments.bodies == s.comments.bodies + [c.body.value]
              && r.comments.upvotes == s.comments.upvotes + [c.score]
              && r.comments.authorIds == s.comments.authorIds + [AuthorKey(c.authorFullname)]
    ensures Accepted(s, c) && c.gilded > 0 ==>
              && r.gildings.commentIds == s.gildings.commentIds + [c.id]
              && r.gildings.gilds == s.gildings.gilds + [c.gildings]
              && r.gildings.numGilds == s.gildings.numGilds + [c.gilded]
    ensures c.gilded <= 0 ==> r.gildings == s.gildings
  {
    if Skipped(c) then s
    else
      var key := AuthorKey(c.authorFullname);
      if key in s.authors.authorIds then Record(s, c, key)
      else
        var u := ReadUser(s.authors, c.author);
        if u.ok then Record(s.(authors := u.table), c, key) else s.(authors := u.table)
  }

  /** The inner loop of `addTo`: every comment of one submission, in order. */
  function IngestAll(s: State, cs: seq<Comment>): (r: State)
    ensures SameControl(s, r) && Grows(s, r)
    ensures |r.comments.ids| <= |s.comments.ids| + |cs|
    decreases |cs|
  {
    if cs == [] then s else IngestAll(IngestComment(s, cs[0]), cs[1..])
  }

  /** `save_files`: flush when the comment count has reached the checkpoint,
      then, independently, stop when it exceeds the minimum. */
  function Save(s: State): (r: (State, Decision))
    ensures r.1.flush <==> |s.comments.ids| >= s.checkpoint
    ensures r.1.stop <==> |s.comments.ids| > s.minimum
    ensures r.0.checkpoint == if r.1.flush then s.checkpoint + s.interval else s.checkpoint
    ensures r.1.flush ==> r.0.saved == Some(Snapshot(s.comments, s.authors, s.gildings))
    ensures !r.1.flush ==> r.0.saved == s.saved
    ensures r.0.ids == s.ids && r.0.comments == s.comments && r.0.authors == s.authors &&
            r.0.gildings == s.gildings && r.0.interval == s.interval && r.0.minimum == s.minimum
  {
    var length := |s.comments.ids|;
    var s1 := if length < s.checkpoint then s
              else s.(saved := Some(Snapshot(s.comments, s.authors, s.gildings)),
                      checkpoint := s.checkpoint + s.interval);
    (s1, Decision(length >= s.checkpoint, length > s.minimum))
  }

  /** One submission of the outer loop of `addTo`. */
  datatype Step = Seen | Processed(state: State, decision: Decision)

  function Visit(s: State, sub: Submission): (r: Step)
    ensures r.Seen? <==> sub.id in s.ids
    ensures r.Processed? ==>
              && r.state.ids == s.ids + [sub.id]
              && Grows(s, r.state)
              && r.state.interval == s.interval && r.state.minimum == s.minimum
              && (r.decision.flush <==> |r.state.comments.ids| >= s.checkpoint)
              && (r.decision.stop <==> |r.state.comments.ids| > s.minimum)
              && r.state.checkpoint == (if r.decision.flush then s.checkpoint + s.interval else s.checkpoint)
              && (r.decision.flush ==>
                    r.state.saved == Some(Snapshot(r.state.comments, r.state.authors, r.state.gildings)))
              && (!r.decision.flush ==> r.state.saved == s.saved)
  {
    if sub.id in s.ids then Seen
    else
      var saved := Save(IngestAll(s.(ids := s.ids + [sub.id]), sub.comments));
      Processed(saved.0, saved.1)
  }

  /** How a run of `addTo` ends: the listing runs out, or `sys.exit` is reached. */
  datatype Outcome = Exhausted | Stopped

  datatype RunResult = RunResult(state: State, outcome: Outcome)

  /** `addTo` over the whole listing. */
  function Run(s: State, feed: seq<Submission>): (r: RunResult)
    ensures r.state.interval == s.interval && r.state.minimum == s.minimum
    ensures s.ids <= r.state.ids && Grows(s, r.state)
    ensures feed == [] ==> r == RunResult(s, Exhausted)
    decreases |feed|
  {
    if feed == [] then RunResult(s, Exhausted)
    else
      match Visit(s, feed[0])
      case Seen => Run(s, feed[1..])
      case Processed(s1, d) => if d.stop then RunResult(s1, Stopped) else Run(s1, feed[1..])
  }

  /** The number of flushes a run performs. */
  function Flushes(s: State, feed: seq<Submission>): nat
    decreases |feed|
  {
    if feed == [] then 0
    else
      match Visit(s, feed[0])
      case Seen => Flushes(s, feed[1..])
      case Processed(s1, d) =>
        (if d.flush then 1 else 0) + (if d.stop then 0 else Flushes(s1, feed[1..]))
  }

  /** The submission ids of a listing, in order. */
  function IdsOf(feed: seq<Submission>): (r: seq<string>)
    ensures |r| == |feed|
    ensures forall k :: 0 <= k < |feed| ==> r[k] == feed[k].id
  {
    if feed == [] then [] else [feed[0].id] + IdsOf(feed[1..])
  }

  predicate Unique(xs: seq<string>)
  {
    forall i, j :: 0 <= i < j < |xs| ==> xs[i] != xs[j]
  }

  /** Every gilding row names a comment that has a comment row. */
  predicate GildsReferenceComments(s: State)
  {
    forall i :: 0 <= i < |s.gildings.commentIds| ==> s.gildings.commentIds[i] in s.comments.ids
  }

  /** What holds of every state the scraper reaches, whatever the forum returns:
      the comment and gilding columns stay aligned, there are no more gilding rows
      than comment rows, each refers to a recorded comment, and no submission id is
      recorded twice. The author columns are not part of it: they can be ragged. */
  predicate Inv(s: State)
  {
    s.comments.Aligned() && s.gildings.Aligned() &&
    |s.gildings.commentIds| <= |s.comments.ids| &&
    GildsReferenceComments(s) && Unique(s.ids)
  }

  /** Author ids are unique and every comment row's author id has an entry in the
      author-id column. The other author columns may lack that author (ragged). */
  predicate Linked(s: State)
  {
    Unique(s.authors.authorIds) &&
    forall i :: 0 <= i < |s.comments.authorIds| ==> s.comments.authorIds[i] in s.authors.authorIds
  }

  predicate AllConsistent(cs: seq<Comment>)
  {
    forall j :: 0 <= j < |cs| ==> Consistent(cs[j])
  }

  predicate FeedConsistent(feed: seq<Submission>)
  {
    forall k :: 0 <= k < |feed| ==> AllConsistent(feed[k].comments)
  }
}
