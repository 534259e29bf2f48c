# Reddit gild scraper: collection and checkpoint engine

A Dafny model of the `Scraper` class of the Reddit gild-prediction scraper and of
its `GildData` container. The scraper walks a subreddit's top submissions and
skips any submission it has already seen. For each new submission it feeds every
comment of the fully expanded tree through a skip policy and an author lookup.
It keeps three column-oriented tables:

- comments (body, upvotes, id, author id);
- authors (id, comment karma, link karma, creation time, premium status);
- gildings (comment id, award mapping, award count).

After each submission it decides whether to write the tables to disk, and then
whether to exit.

Files:

- `wrappers.dfy`: `Option`. It stands for Python's `None` and for an attribute read that raises.
- `praw.dfy`: the forum objects the scraper reads.
  - An `Author` is `Missing` (`comment.author` is None).
  - Or it is `Flagged` (a readable `is_suspended` of any value other than None, False included).
  - Or it is an `Account` whose five attribute reads may each raise.
  - Also in this file: `AuthorKey`, which models `author_fullname[3:]` with Python's slicing (`""` when the name is shorter than 3).
- `collection.dfy`: the engine as functions of a `State` value. `State` holds the
  seen ids, the three tables, the counters, and the last snapshot written to the
  CSV files. It also defines the invariants `Inv` and `Linked`.
- `collection_facts.dfy`: lemmas over whole runs. They cover the invariants,
  author uniqueness, the checkpoint cadence and termination.
- `scraper.dfy`: class `Scraper`. Its fields are updated in place, as in the
  source. Each method is proved to change the object's state exactly as the
  matching `Collection` function does.
- `gild_data.dfy`: class `GildData`. It has the two parallel lists and a ghost
  record of the comments received.

Behaviour of the source that the model keeps on purpose:

- A comment is skipped whenever `is_suspended` can be read and is not None, even when its value is False.
- Authors are looked up by `author_fullname[3:]` but stored under `author.id`. So
  author-id uniqueness and "every comment row's author id is in the author-id
  column" are guaranteed only when the two agree (`Praw.Consistent`). `DuplicateAuthorWhenInconsistent` shows what
  happens otherwise.
- `retrieveUser` appends column by column. A read that raises midway leaves the
  author columns ragged, and the comment is dropped. `Inv` therefore does not
  require the author columns to be aligned.
- Each flushing call of `save_files` advances `checkpoint` by exactly one
  `interval`. The flush test (`>=`) comes before the exit test (`>`) in the same
  call.

Checkpoint arithmetic:

- A flush adds one `interval` to `checkpoint`. It does not move the checkpoint
  to the next `checkpoint + k * interval` above the count. So after a large
  submission the checkpoint lags behind the count, and the next calls flush
  again (`CheckpointLags`).
- `RunCheckpointCadence` proves that the checkpoint equals its start value plus
  one interval per flush.

## Model

| member | source | states |
|---|---|---|
| Praw.AuthorKey | script.py:75 | The lookup key is the fullname minus its first three characters, and empty when the fullname is shorter. |
| Collection.Configure | script.py:19-30 | With no checkpoint, checkpoint and interval are 10000; otherwise both equal the given one. An absent minimum is 200000. The result is None (exit) exactly when minimum < checkpoint, and any accepted configuration has minimum >= checkpoint. |
| Collection.Initial | script.py:18-35 | A new scraper has no seen ids, every column of the comment, author and gilding tables empty, and nothing written. Its checkpoint, interval and minimum are the configured ones. It satisfies both run invariants, `Inv` and `Linked`. |
| Collection.ReadableAttributes | script.py:44-50 | Counts how many of the five author reads (id, comment karma, link karma, created_utc, is_gold) succeed before the first that raises. The first n reads succeed and, when n < 5, read n+1 raises. It is 0 for an author that is not an account, and 5 exactly when all five can be read. |
| Collection.ReadUser | script.py:39-50 | Column k of the author table gains the author's k-th attribute exactly when the first k reads succeed, so a failure leaves earlier columns appended. It reports success exactly when all five reads succeed, and a success keeps aligned columns aligned. |
| Collection.IngestComment | script.py:65-91 | A skipped comment changes nothing. A known author key adds no author row. A new author goes through ReadUser. A comment whose author cannot be read leaves the comment and gilding tables unchanged. An accepted comment appends one entry to each comment column, with author id `author_fullname[3:]`. A gilding row with the same id is appended exactly when it is accepted and `gilded > 0`. Ids, counters and files are untouched, and every column only grows. |
| Collection.IngestAll | script.py:102-104 | Ingesting a submission's comments only appends to the tables, adds at most one comment row per comment, and leaves ids, counters and files unchanged. |
| Collection.Save | script.py:107-126 | Flushes exactly when the comment count is >= checkpoint. A flush writes the full current tables and advances checkpoint by exactly one interval; without a flush the checkpoint and files are unchanged. Separately, it stops exactly when the count is > minimum. |
| Collection.Visit | script.py:98-105 | A submission whose id was seen is skipped (no comments, no save). For a new one the id is appended to the ids exactly once, and the tables only grow. On the resulting comment count the save flushes exactly when it is >= checkpoint, advancing checkpoint by one interval and writing the resulting tables, and stops exactly when it is > minimum. |
| CollectionFacts.IngestAllIgnoresIds | script.py:102-104 | Ingesting comments neither depends on nor changes the seen-submission ids: ingesting into a state with other ids gives the same tables and keeps those ids. |
| CollectionFacts.VisitIngests | script.py:99-105 | For a new submission, the comment, author and gilding tables after the visit are exactly those of ingesting its comments, in order, into the tables it started from. The tables the save writes and its flush and stop tests therefore come from the tables after ingestion. |
| Collection.Run | script.py:97-105 | A run over the listing keeps interval and minimum, only extends the ids, and only appends to tables. |
| CollectionFacts.IngestKeepsInv | script.py:84-91 | One comment keeps the comment and gilding columns aligned, keeps gilding rows no more numerous than comment rows, and keeps each gilding row naming a recorded comment. |
| CollectionFacts.IngestAllKeepsInv | script.py:102-104 | The same invariant holds after all comments of a submission. |
| CollectionFacts.VisitKeepsInv | script.py:98-105 | Processing a submission keeps the invariant, including that no submission id is recorded twice. |
| CollectionFacts.RunKeepsInv | script.py:97-105 | The invariant holds for every state a run reaches. |
| CollectionFacts.IngestKeepsLinked | script.py:75-87 | For a comment whose fullname names its author's id, author ids stay unique and every comment row's author id has an entry in the author-id column (the other author columns may lack it). |
| CollectionFacts.IngestAllKeepsLinked | script.py:102-104 | The same holds over all comments of a submission, provided each is consistent. |
| CollectionFacts.RunKeepsLinked | script.py:97-105 | Author-id uniqueness and coverage of every comment row's author id by the author-id column hold throughout a run over a consistently named listing. |
| CollectionFacts.DuplicateAuthorWhenInconsistent | script.py:75-79 | For any state and any fully readable, non-skipped comment whose fullname key differs from its author id and is not yet known, ingesting the comment twice stores that author id twice. |
| CollectionFacts.CommentWithoutAuthorRow | script.py:60-63 | An author whose id reads but whose karma raises: the first comment is dropped but leaves its id, and the second is recorded with an author id that has no comment-karma entry, while `Linked` still holds. |
| CollectionFacts.RunStopIsFinal | script.py:123-126 | Once a run stops, appending more submissions to the listing changes neither the final state nor the outcome. |
| CollectionFacts.RunStoppedAboveMinimum | script.py:123-126 | A run that stops has strictly more comment rows than the minimum. |
| CollectionFacts.RunRecordsIds | script.py:97-99 | Every id a run adds comes from the listing. A run that is not stopped has recorded the id of every submission in the listing. |
| CollectionFacts.RunCheckpointCadence | script.py:110-122 | After a run, checkpoint equals its start value plus interval times the number of flushes. |
| CollectionFacts.RunDropsRepeat | script.py:97-99 | A submission whose id is already recorded, or that appears earlier in the listing, can be placed anywhere later in the listing without changing the final state or the outcome. |
| CollectionFacts.RunTwiceIsOnce | script.py:98-99 | A submission listed twice in a row has the same effect as listing it once. |
| CollectionFacts.CheckpointLags | script.py:110-122 | When the count is at least one interval past the checkpoint, a flush leaves the next call flushing again. |
| CollectionFacts.StopWithoutFlush | script.py:110-126 | When minimum < count < checkpoint, the call stops without writing the files. |
| CollectionFacts.GildingExample | script.py:84-91 | For two comments by one author, the second gilded twice, the tables get two comment rows, one author row and one gilding row for the second comment. |
| Praw.FullnameKey | script.py:75 | The key of the fullname "t2_" + id is that id. |
| Script.Scraper.Open | script.py:31-35 | The scraper's state is the initial state of its configuration and its listing is the given one. |
| Script.Scraper.Init | script.py:16-37 | Returns no scraper exactly when Configure rejects the arguments. Otherwise it returns a fresh valid scraper in the initial state of the configured values. |
| Script.Scraper.RetrieveUser | script.py:39-50 | Appends to the author columns one read at a time, ending as ReadUser does, with ok false when a read raised. |
| Script.Scraper.RetrieveComment | script.py:52-91 | The new state is IngestComment of the old state, and the invariant is kept. |
| Script.Scraper.SaveFiles | script.py:107-126 | The new state and the flush/stop decision are those of Save, and the invariant is kept. |
| Script.Scraper.AddTo | script.py:94-105 | The final state and the outcome (listing exhausted, or stopped) are those of Run over the listing, and the invariant is kept. |
| GildStore.GildData.constructor | src/data/GildData.py:5-7 | Both lists start empty and nothing has been received. |
| GildStore.GildData.RetrieveData | src/data/GildData.py:9-12 | Appends the comment's id and gildings at the end of each list. Earlier entries are unchanged, and entry i of both lists still comes from the i-th comment received. |
| GildStore.GildData.GetLength | src/data/GildData.py:14-15 | Returns the number of comments received since construction, which is also the length of both lists. It modifies nothing. |

## Left out

- The praw client is not modelled: `praw.Reddit()`, `subreddit(...).top(limit=None)`, `replace_more` and `comments.list()`. They are network I/O. The listing is a finite sequence passed to `Scraper.Init`, and each submission carries its already-flattened comments.
- Python's listing is a generator, so a second `addTo` on the same object would see nothing. The model's `AddTo` would walk the listing again. After an exhausted run every id is already seen (`RunRecordsIds`), so a second walk changes nothing. After a stopped run the source has exited, while the model's object could still be driven and would process the rest of the listing.
- pandas `DataFrame` and `to_csv` are foreign-library file I/O. A flush is modelled as recording a `Snapshot` of the three tables in `saved`. The model does not capture that pandas raises on columns of unequal length, which a ragged author table would hit.
- `time.time`, `localtime`/`strftime`, the elapsed-hours computation, `print` and `pprint` are clock, floating point and console output.
- `sys.exit` is not process termination here. It is `Init` returning None, or `AddTo`'s `Stopped` outcome.
- `main()` and its argparse dispatch are command-line plumbing. Building several scrapers in sequence is out of scope.
- `GildData.saveData`, `loadData` and the `Data` base class are not modelled: they depend on a superclass that is not part of this model and on JSON file I/O.
- `created_utc` is a float attribute. It is modelled as a `real` that is only stored, never computed with.
- Reads that can raise are not all modelled. Only the five `retrieveUser` reads and the `is_suspended` probe can fail here. `comment.body`, `author_fullname`, `score` and `gilded` are assumed readable.
- A readable `is_suspended` whose value is None cannot be told apart from an unreadable one, so it is modelled as an `Account`.
