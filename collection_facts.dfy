/**
 * What the collection engine guarantees over a whole run: invariants every step
 * keeps, the checkpoint cadence, and the termination rule.
 */
module CollectionFacts {
  import opened Wrappers
  import opened Praw
  import opened Collection

  lemma UniqueAppend(xs: seq<string>, x: string)
    requires Unique(xs) && x !in xs
    ensures Unique(xs + [x])
  {
  }

  lemma IngestKeepsInv(s: State, c: Comment)
    requires Inv(s)
    ensures Inv(IngestComment(s, c))
  {
  }

  lemma {:induction false} IngestAllKeepsInv(s: State, cs: seq<Comment>)
    requires Inv(s)
    ensures Inv(IngestAll(s, cs))
    decreases |cs|
  {
    if cs != [] {
      IngestKeepsInv(s, cs[0]);
      IngestAllKeepsInv(IngestComment(s, cs[0]), cs[1..]);
    }
  }

  /** Ingesting comments neither reads nor writes the seen-submission ids. */
  lemma {:induction false} IngestAllIgnoresIds(s: State, x: seq<string>, cs: seq<Comment>)
    ensures IngestAll(s.(ids := x), cs) == IngestAll(s, cs).(ids := x)
    decreases |cs|
  {
    if cs != [] {
      assert IngestComment(s.(ids := x), cs[0]) == IngestComment(s, cs[0]).(ids := x);
      IngestAllIgnoresIds(IngestComment(s, cs[0]), x, cs[1..]);
    }
  }

  /** The tables a processed submission leaves are those of ingesting its
      comments, in order, into the tables it started from. */
  lemma VisitIngests(s: State, sub: Submission)
    ensures Visit(s, sub).Processed? ==>
              var t := IngestAll(s, sub.comments);
              && Visit(s, sub).state.comments == t.comments
              && Visit(s, sub).state.authors == t.authors
              && Visit(s, sub).state.gildings == t.gildings
  {
    IngestAllIgnoresIds(s, s.ids + [sub.id], sub.comments);
  }

  lemma VisitKeepsInv(s: State, sub: Submission)
    requires Inv(s)
    ensures Visit(s, sub).Processed? ==> Inv(Visit(s, sub).state)
  {
    if sub.id !in s.ids {
      var s0 := s.(ids := s.ids + [sub.id]);
      UniqueAppend(s.ids, sub.id);
      assert Inv(s0);
      IngestAllKeepsInv(s0, sub.comments);
    }
  }

  /** The invariant holds throughout a run from any state that has it. */
  lemma {:induction false} RunKeepsInv(s: State, feed: seq<Submission>)
    requires Inv(s)
    ensures Inv(Run(s, feed).state)
    decreases |feed|
  {
    if feed != [] {
      VisitKeepsInv(s, feed[0]);
      match Visit(s, feed[0])
      case Seen => RunKeepsInv(s, feed[1..]);
      case Processed(s1, d) => if !d.stop { RunKeepsInv(s1, feed[1..]); }
    }
  }

  /** A comment whose fullname and author id agree keeps author ids unique and
      every comment row's author id in the author-id column. */
  lemma IngestKeepsLinked(s: State, c: Comment)
    requires Linked(s) && Consistent(c)
    ensures Linked(IngestComment(s, c))
  {
  }

  lemma {:induction false} IngestAllKeepsLinked(s: State, cs: seq<Comment>)
    requires Linked(s) && AllConsistent(cs)
    ensures Linked(IngestAll(s, cs))
    decreases |cs|
  {
    if cs != [] {
      assert Consistent(cs[0]);
      IngestKeepsLinked(s, cs[0]);
      assert AllConsistent(cs[1..]) by {
        forall j | 0 <= j < |cs[1..]| ensures Consistent(cs[1..][j]) { assert cs[1..][j] == cs[j + 1]; }
      }
      IngestAllKeepsLinked(IngestComment(s, cs[0]), cs[1..]);
    }
  }

  /** Author uniqueness and referential coverage over a whole run, provided the
      forum names each account consistently. */
  lemma {:induction false} RunKeepsLinked(s: State, feed: seq<Submission>)
    requires Linked(s) && FeedConsistent(feed)
    ensures Linked(Run(s, feed).state)
    decreases |feed|
  {
    if feed != [] {
      assert AllConsistent(feed[0].comments);
      assert FeedConsistent(feed[1..]) by {
        forall k | 0 <= k < |feed[1..]| ensures AllConsistent(feed[1..][k].comments) {
          assert feed[1..][k] == feed[k + 1];
        }
      }
      match Visit(s, feed[0])
      case Seen => RunKeepsLinked(s, feed[1..]);
      case Processed(s1, d) =>
        IngestAllKeepsLinked(s.(ids := s.ids + [feed[0].id]), feed[0].comments);
        if !d.stop { RunKeepsLinked(s1, feed[1..]); }
    }
  }

  /** Without that consistency the lookup key and the stored id can differ, and
      the same account is then stored once per comment. */
  lemma DuplicateAuthorWhenInconsistent(s: State, c: Comment)
    requires !Skipped(c) && ReadableAttributes(c.author) == 5
    requires AuthorKey(c.authorFullname) != c.author.id.value
    requires AuthorKey(c.authorFullname) !in s.authors.authorIds
    ensures IngestAll(s, [c, c]).authors.authorIds ==
              s.authors.authorIds + [c.author.id.value, c.author.id.value]
  {
    var s1 := IngestComment(s, c);
    assert s1.authors.authorIds == s.authors.authorIds + [c.author.id.value];
    assert AuthorKey(c.authorFullname) !in s1.authors.authorIds;
    assert [c, c][1..] == [c];
    assert [c][1..] == [];
    assert IngestAll(s1, [c]) == IngestAll(IngestComment(s1, c), []);
  }

  /** An author whose id can be read but whose karma cannot: the first comment is
      dropped but leaves the id behind, so the second is recorded with an author
      id that has no comment-karma (or any later) entry. */
  lemma CommentWithoutAuthorRow(cfg: Config)
    ensures var a := Account(Some("a"), None, None, None, None);
            var c1 := Comment("c1", Some("hi"), 1, "t2_a", 0, map[], a);
            var c2 := Comment("c2", Some("yo"), 1, "t2_a", 0, map[], a);
            var r := IngestAll(Initial(cfg), [c1, c2]);
            && r.comments.ids == ["c2"] && r.comments.authorIds == ["a"]
            && r.authors.authorIds == ["a"] && r.authors.commentKarma == []
            && Linked(r) && !r.authors.Aligned()
  {
    var a := Account(Some("a"), None, None, None, None);
    var c1 := Comment("c1", Some("hi"), 1, "t2_a", 0, map[], a);
    var c2 := Comment("c2", Some("yo"), 1, "t2_a", 0, map[], a);
    assert AuthorKey("t2_a") == "a";
    var s1 := IngestComment(Initial(cfg), c1);
    assert s1.authors.authorIds == ["a"] && s1.comments.ids == [];
    var s2 := IngestComment(s1, c2);
    assert [c1, c2][1..] == [c2];
    assert [c2][1..] == [];
    assert IngestAll(Initial(cfg), [c1, c2]) == IngestAll(s1, [c2]);
    assert IngestAll(s1, [c2]) == s2;
  }

  /** Once a run stops, whatever follows in the listing is never looked at. */
  lemma {:induction false} RunStopIsFinal(s: State, feed: seq<Submission>, more: seq<Submission>)
    requires Run(s, feed).outcome == Stopped
    ensures Run(s, feed + more) == Run(s, feed)
    decreases |feed|
  {
    assert feed != [];
    assert (feed + more)[0] == feed[0];
    assert (feed + more)[1..] == feed[1..] + more;
    match Visit(s, feed[0])
    case Seen => RunStopIsFinal(s, feed[1..], more);
    case Processed(s1, d) => if !d.stop { RunStopIsFinal(s1, feed[1..], more); }
  }

  /** A run stops only once the comment count is strictly above the minimum. */
  lemma {:induction false} RunStoppedAboveMinimum(s: State, feed: seq<Submission>)
    ensures Run(s, feed).outcome == Stopped ==> |Run(s, feed).state.comments.ids| > s.minimum
    decreases |feed|
  {
    if feed != [] {
      match Visit(s, feed[0])
      case Seen => RunStoppedAboveMinimum(s, feed[1..]);
      case Processed(s1, d) => if !d.stop { RunStoppedAboveMinimum(s1, feed[1..]); }
    }
  }

  /** The ids recorded by a run are the old ones followed by ids of the listing,
      and a run that is not stopped has recorded every id of the listing. */
  lemma {:induction false} RunRecordsIds(s: State, feed: seq<Submission>)
    ensures var r := Run(s, feed);
            forall i :: |s.ids| <= i < |r.state.ids| ==> r.state.ids[i] in IdsOf(feed)
    ensures var r := Run(s, feed);
            r.outcome == Exhausted ==> forall k :: 0 <= k < |feed| ==> feed[k].id in r.state.ids
    decreases |feed|
  {
    if feed != [] {
      var r := Run(s, feed);
      var rest := feed[1..];
      assert IdsOf(feed) == [feed[0].id] + IdsOf(rest);
      match Visit(s, feed[0])
      case Seen =>
        RunRecordsIds(s, rest);
        assert forall k :: 1 <= k < |feed| ==> feed[k] == rest[k - 1];
      case Processed(s1, d) =>
        if !d.stop {
          RunRecordsIds(s1, rest);
          assert s1.ids <= r.state.ids;
          assert r.state.ids[|s.ids|] == feed[0].id;
          assert forall k :: 1 <= k < |feed| ==> feed[k] == rest[k - 1];
        }
    }
  }

  /** The checkpoint moves by exactly one interval per flush. */
  lemma {:induction false} RunCheckpointCadence(s: State, feed: seq<Submission>)
    ensures Run(s, feed).state.checkpoint == s.checkpoint + Flushes(s, feed) * s.interval
    decreases |feed|
  {
    if feed != [] {
      var v := Visit(s, feed[0]);
      if v.Seen? {
        RunCheckpointCadence(s, feed[1..]);
      } else if !v.decision.stop {
        var s1 := v.state;
        RunCheckpointCadence(s1, feed[1..]);
        var n := Flushes(s1, feed[1..]);
        assert Run(s, feed).state.checkpoint == s1.checkpoint + n * s.interval;
        if v.decision.flush {
          assert Flushes(s, feed) == 1 + n;
          MulStep(n, s.interval);
        } else {
          assert Flushes(s, feed) == n;
        }
      } else {
        assert Flushes(s, feed) == if v.decision.flush then 1 else 0;
      }
    }
  }

  lemma MulStep(n: int, k: int)
    ensures (1 + n) * k == k + n * k
  {
  }

  /** Listing a submission twice in a row has the effect of listing it once. */
  lemma RunTwiceIsOnce(s: State, sub: Submission)
    ensures Run(s, [sub, sub]) == Run(s, [sub])
  {
  }

  /** A submission whose id is already recorded, or that appeared earlier in the
      listing, has no effect wherever it is listed again. */
  lemma {:induction false} RunDropsRepeat(s: State, a: seq<Submission>, sub: Submission, b: seq<Submission>)
    requires sub.id in s.ids || exists k :: 0 <= k < |a| && a[k].id == sub.id
    ensures Run(s, a + [sub] + b) == Run(s, a + b)
    decreases |a|
  {
    if a == [] {
      assert a + [sub] + b == [sub] + b && ([sub] + b)[1..] == b;
      assert a + b == b;
    } else {
      var x := a[0];
      var rest := a[1..];
      assert (a + [sub] + b)[0] == x && (a + [sub] + b)[1..] == rest + [sub] + b;
      assert (a + b)[0] == x && (a + b)[1..] == rest + b;
      var earlier := sub.id in s.ids || x.id == sub.id;
      if !earlier {
        var k :| 0 <= k < |a| && a[k].id == sub.id;
        assert rest[k - 1] == a[k];
      }
      match Visit(s, x)
      case Seen => RunDropsRepeat(s, rest, sub, b);
      case Processed(s1, d) =>
        if !d.stop {
          assert earlier ==> sub.id in s1.ids;
          RunDropsRepeat(s1, rest, sub, b);
        }
    }
  }

  /** A flush advances the checkpoint by one interval only, so when a submission
      carries the count past several intervals the next call flushes again. */
  lemma CheckpointLags(s: State)
    requires s.interval >= 0 && |s.comments.ids| >= s.checkpoint + s.interval
    ensures Save(s).1.flush && Save(Save(s).0).1.flush
  {
  }

  /** The final call can stop without flushing: data collected since the last
      checkpoint is then never written. */
  lemma StopWithoutFlush(s: State)
    requires s.minimum < |s.comments.ids| < s.checkpoint
    ensures Save(s).1 == Decision(false, true) && Save(s).0.saved == s.saved
  {
  }

  /** Two comments by one readable author, the second gilded twice: two comment
      rows, one author row, one gilding row. */
  lemma GildingExample(cfg: Config)
    ensures var a := Account(Some("a1"), Some(10), Some(20), Some(0.0), Some(false));
            var c1 := Comment("c1", Some("hi"), 1, "t2_a1", 0, map[], a);
            var c2 := Comment("c2", Some("yo"), 2, "t2_a1", 2, map["gold" := 2], a);
            var r := IngestAll(Initial(cfg), [c1, c2]);
            && r.comments.ids == ["c1", "c2"]
            && r.authors.authorIds == ["a1"]
            && r.gildings == GildTable(["c2"], [map["gold" := 2]], [2])
  {
    var a := Account(Some("a1"), Some(10), Some(20), Some(0.0), Some(false));
    var c1 := Comment("c1", Some("hi"), 1, "t2_a1", 0, map[], a);
    var c2 := Comment("c2", Some("yo"), 2, "t2_a1", 2, map["gold" := 2], a);
    assert AuthorKey("t2_a1") == "a1";
    var s1 := IngestComment(Initial(cfg), c1);
    assert s1.authors.authorIds == ["a1"];
    var s2 := IngestComment(s1, c2);
    assert [c1, c2][1..] == [c2];
    assert [c2][1..] == [];
    assert IngestAll(Initial(cfg), [c1, c2]) == IngestAll(s1, [c2]);
    assert IngestAll(s1, [c2]) == s2;
  }
}
