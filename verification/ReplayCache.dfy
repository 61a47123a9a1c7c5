/** Replay protection for webhook deliveries: a bounded, insertion-ordered cache of delivery ids. */
module ReplayCache {
  import opened Seqs
  import opened Recency

  const REPLAY_CACHE_MAX: nat := 1000

  function Keys(entries: seq<(string, real)>): seq<string> {
    Map(entries, (e: (string, real)) => e.0)
  }

  class ReplayCache {
    /** The OrderedDict: ids with the time each was first recorded, oldest first. */
    var entries: seq<(string, real)>
    ghost var history: seq<string>

    /** The cache holds exactly the most recent distinct ids of all calls, in recency order. */
    ghost predicate Valid()
      reads this
    {
      Keys(entries) == LastN(ByLastUse(history), 1000)
    }

    constructor ()
      ensures Valid() && history == [] && entries == []
    {
      entries, history := [], [];
    }

    /** A delivery is a replay if and only if its id is among the 1000 most recently seen distinct ids. */
    method IsReplay(id: string, now: real) returns (replay: bool)
      requires Valid()
      modifies this
      ensures Valid() && history == old(history) + [id]
      ensures replay <==> AmongLast(old(history), id, 1000)
    {
      hide Distinct, ByLastUse, Without, AmongLast;
      LastNIsAmongLast(history, id, REPLAY_CACHE_MAX);
      ByLastUseDistinct(history);
      LastNDistinct(ByLastUse(history), REPLAY_CACHE_MAX);
      TouchTracksRecency(history, id, REPLAY_CACHE_MAX);
      history := history + [id];
      var i := Find(entries, id);
      if i < |entries| {
        MoveToEnd(entries, i);
        entries := entries[..i] + entries[i + 1..] + [entries[i]];
        return true;
      }
      ghost var before := Keys(entries);
      entries := entries + [(id, now)];
      assert Keys(entries) == before + [id];
      while |entries| > REPLAY_CACHE_MAX
        invariant history == old(history) + [id]
        invariant Keys(entries) == LastN(before + [id], |entries|) && |entries| <= |before + [id]|
        invariant |entries| >= REPLAY_CACHE_MAX || |entries| == |before + [id]|
      {
        assert Keys(entries[1..]) == Keys(entries)[1..];
        entries := entries[1..];
      }
      replay := false;
    }
  }

  /** The index of id, or the length when it is absent. */
  method Find(entries: seq<(string, real)>, id: string) returns (i: nat)
    ensures i <= |entries| && (i < |entries| ==> entries[i].0 == id)
    ensures i == |entries| <==> id !in Keys(entries)
    ensures forall j :: 0 <= j < i ==> entries[j].0 != id
  {
    i := 0;
    while i < |entries| && entries[i].0 != id
      invariant i <= |entries| && forall j :: 0 <= j < i ==> entries[j].0 != id
    {
      i := i + 1;
    }
    if i < |entries| { assert Keys(entries)[i] == id; }
  }

  lemma MoveToEnd(entries: seq<(string, real)>, i: nat)
    requires i < |entries| && Distinct(Keys(entries))
    ensures Keys(entries[..i] + entries[i + 1..] + [entries[i]]) == Without(Keys(entries), entries[i].0) + [entries[i].0]
  {
    var ks, k := Keys(entries), entries[i].0;
    assert ks[i] == k;
    WithoutAt(ks, i);
    assert Keys(entries[..i] + entries[i + 1..] + [entries[i]]) == ks[..i] + ks[i + 1..] + [k];
  }
}
