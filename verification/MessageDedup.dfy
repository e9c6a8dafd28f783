/**
  The bridge's window of message ids it has already taken, against frames the hub sends again.
*/
module MessageDedup {

  const DEDUP_WINDOW := 128

  predicate Distinct(order: seq<string>) {
    forall i, j | 0 <= i < j < |order| :: order[i] != order[j]
  }

  function Remember(order: seq<string>, id: string): seq<string> {
    if id == "" || id in order then order
    else if |order| < DEDUP_WINDOW then order + [id]
    else (order + [id])[1..]
  }

  class MessageDeduper {
    var ids: set<string>
    var order: seq<string>

    predicate Valid()
      reads this
    {
      |order| <= DEDUP_WINDOW && Distinct(order) && ids == set id | id in order
    }

    constructor ()
      ensures Valid() && order == []
    {
      ids, order := {}, [];
    }

    method Seen(id: string) returns (seen: bool)
      requires Valid()
      modifies this
      ensures Valid()
      ensures seen <==> id != "" && id in old(order)
      ensures order == Remember(old(order), id)
    {
      if id == "" { return false; }
      if id in ids { return true; }
      ids := ids + {id};
      order := order + [id];
      if |order| > DEDUP_WINDOW {
        var oldest := order[0];
        ids := ids - {oldest};
        order := order[1..];
        assert forall x :: x in [oldest] + order <==> x == oldest || x in order;
        assert [oldest] + order == old(order) + [id];
      }
      return false;
    }
  }

  // ---------------------------------------------------------------- a stream of ids

  function Recent(taken: seq<string>): seq<string> {
    if |taken| <= 128 then taken else taken[|taken| - 128..]
  }

  // The ids that were taken, in order; messages without an id are taken but not remembered.
  function Taken(stream: seq<string>): seq<string> {
    if stream == [] then []
    else
      var taken, id := Taken(stream[..|stream| - 1]), stream[|stream| - 1];
      if id == "" || id in Recent(taken) then taken else taken + [id]
  }

  function WindowAfter(stream: seq<string>): seq<string> {
    if stream == [] then [] else Remember(WindowAfter(stream[..|stream| - 1]), stream[|stream| - 1])
  }

  /** Over any stream the deduper remembers exactly the last 128 ids it took, so it skips an id
      exactly when it is one of those. */
  lemma {:induction false} WindowIsRecent(stream: seq<string>)
    ensures WindowAfter(stream) == Recent(Taken(stream))
    decreases |stream|
  {
    if stream != [] {
      WindowIsRecent(stream[..|stream| - 1]);
      var taken, id := Taken(stream[..|stream| - 1]), stream[|stream| - 1];
      if id != "" && id !in Recent(taken) { RememberRecent(taken, id); }
    }
  }

  lemma RememberRecent(taken: seq<string>, id: string)
    requires id != "" && id !in Recent(taken)
    ensures Remember(Recent(taken), id) == Recent(taken + [id])
  {
  }

  lemma InRecent(taken: seq<string>, i: nat)
    requires |taken| - DEDUP_WINDOW <= i < |taken|
    ensures taken[i] in Recent(taken)
  {
    assert taken[i] == Recent(taken)[i - (|taken| - |Recent(taken)|)];
  }

  /** An id is taken again only after at least 128 others were taken in between; within that window
      no message runs twice. */
  lemma {:induction false} TakenTwiceOnlyFarApart(stream: seq<string>, i: nat, j: nat)
    requires i < j < |Taken(stream)| && Taken(stream)[i] == Taken(stream)[j]
    ensures j - i > 128
    decreases |stream|
  {
    var before := Taken(stream[..|stream| - 1]);
    if j < |before| {
      TakenTwiceOnlyFarApart(stream[..|stream| - 1], i, j);
    } else if j - i <= DEDUP_WINDOW {
      InRecent(before, i);
    }
  }
}
