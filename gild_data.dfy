/**
 * `GildData`: two parallel, append-only lists of comment ids and their award
 * mappings.
 */
module GildStore {
  import opened Praw

  class GildData {
    var commentIds: seq<string>
    var gildings: seq<Gildings>
    /** Every comment passed to RetrieveData since construction, in order. */
    ghost var received: seq<Comment>

    /** Entry i of both lists comes from the i-th comment received. */
    ghost predicate Valid()
      reads this
    {
      |commentIds| == |received| && |gildings| == |received| &&
      forall i :: 0 <= i < |received| ==>
        commentIds[i] == received[i].id && gildings[i] == received[i].gildings
    }

    constructor ()
      ensures Valid() && received == []
      ensures commentIds == [] && gildings == []
    {
      commentIds, gildings := [], [];
      received := [];
    }

    /** `retrieveData`: one more entry at the end of each list. */
    method RetrieveData(comment: Comment)
      requires Valid()
      modifies this
      ensures Valid() && received == old(received) + [comment]
      ensures commentIds == old(commentIds) + [comment.id]
      ensures gildings == old(gildings) + [comment.gildings]
    {
      commentIds := commentIds + [comment.id];
      gildings := gildings + [comment.gildings];
      received := received + [comment];
    }

    /** `getLength`: the number of comments received, a read that changes nothing. */
    method GetLength() returns (n: nat)
      requires Valid()
      ensures n == |received| && n == |gildings|
    {
      n := |commentIds|;
    }
  }
}
