/** When a client's snapshot can be trusted: exactly which re-saves of an id let a stale one pass. */
module TaskSnapshots {
  import opened Seqs
  import opened TaskStore

  lemma {:induction false} RunConcat(t: Table, a: seq<Event>, b: seq<Event>)
    ensures Run(t, a + b) == Run(Run(t, a), b)
    decreases |a|
  {
    if a == [] {
      assert a + b == b;
    } else {
      assert (a + b)[1..] == a[1..] + b;
      RunConcat(Apply(t, a[0]), a[1..], b);
    }
  }

  lemma RunOne(t: Table, e: Event)
    ensures Run(t, [e]) == Apply(t, e)
  {
    assert [e][1..] == [];
  }

  lemma RunNext(t: Table, es: seq<Event>, j: nat)
    requires j < |es|
    ensures Run(t, es[..j + 1]) == Apply(Run(t, es[..j]), es[j])
  {
    assert es[..j + 1] == es[..j] + [es[j]];
    RunConcat(t, es[..j], [es[j]]);
    RunOne(Run(t, es[..j]), es[j]);
  }

  /** After the first i events, id is stored as r: a client reading then sees r. */
  predicate Sees(t: Table, id: string, es: seq<Event>, i: nat, r: Record)
    requires i <= |es|
  {
    id in Run(t, es[..i]) && Run(t, es[..i])[id] == r
  }

  /** Two readings of the same version are readings of the same record. */
  ghost predicate Sound(t: Table, id: string, es: seq<Event>) {
    forall i: nat, j: nat, q, r ::
      i <= j <= |es| && Sees(t, id, es, i, q) && Sees(t, id, es, j, r) && q.version == r.version ==> q == r
  }

  /** What a save of id must not do: carry a version at or below one already read, unless it is the very record. */
  predicate Supersedes(r: Record, q: Record) {
    q.version < r.version || q == r
  }

  ghost predicate Fresh(t: Table, id: string, es: seq<Event>) {
    forall i: nat, j: nat, q ::
      i <= j < |es| && es[j].Save? && es[j].id == id && Sees(t, id, es, i, q) ==> Supersedes(es[j].record, q)
  }

  lemma {:induction false} LatestSupersedes(t: Table, id: string, es: seq<Event>, i: nat, j: nat, q: Record, r: Record)
    requires Fresh(t, id, es) && i <= j <= |es| && Sees(t, id, es, i, q) && Sees(t, id, es, j, r)
    ensures Supersedes(r, q)
    decreases j
  {
    hide Fresh;
    if i < j {
      var k := j - 1;
      var before, e := Run(t, es[..k]), es[k];
      RunNext(t, es, k);
      if e.Save? && e.id == id {
        SaveSupersedes(t, id, es, i, k, q);
      } else {
        var p := before[id];
        LatestSupersedes(t, id, es, i, k, q, p);
      }
    }
  }

  lemma SaveSupersedes(t: Table, id: string, es: seq<Event>, i: nat, j: nat, q: Record)
    requires Fresh(t, id, es) && i <= j < |es| && es[j].Save? && es[j].id == id && Sees(t, id, es, i, q)
    ensures Supersedes(es[j].record, q)
  {
  }

  lemma {:induction false} FreshIsSound(t: Table, id: string, es: seq<Event>)
    requires Fresh(t, id, es)
    ensures Sound(t, id, es)
  {
    hide Fresh, Sees;
    forall i: nat, j: nat, q, r |
      i <= j <= |es| && Sees(t, id, es, i, q) && Sees(t, id, es, j, r) && q.version == r.version
      ensures q == r
    {
      LatestSupersedes(t, id, es, i, j, q, r);
    }
  }

  // ----- a stale save lets a snapshot pass -----

  /** n updates that change no field. */
  function Bumps(id: string, version: int, n: nat, now: int): seq<Event>
    decreases n
  {
    if n == 0 then [] else [Update(id, version, map[], now)] + Bumps(id, version + 1, n - 1, now)
  }

  lemma {:induction false} BumpsRun(t: Table, id: string, n: nat, now: int)
    requires id in t
    ensures var after := Run(t, Bumps(id, t[id].version, n, now));
      id in after && after[id] == if n == 0 then t[id] else Record(t[id].attrs, t[id].version + n, Some(now))
    ensures NotResaved(id, Bumps(id, t[id].version, n, now))
    decreases n
  {
    if n > 0 {
      var e, rest := Update(id, t[id].version, map[], now), Bumps(id, t[id].version + 1, n - 1, now);
      var u := Apply(t, e);
      assert Bad(map[]) == {} && t[id].attrs + map[] == t[id].attrs;
      assert u[id] == Record(t[id].attrs, t[id].version + 1, Some(now));
      BumpsRun(u, id, n - 1, now);
      assert ([e] + rest)[1..] == rest;
      forall i | 0 <= i < |[e] + rest| && ([e] + rest)[i].Save? ensures ([e] + rest)[i].id != id {
        assert i > 0 && ([e] + rest)[i] == rest[i - 1];
      }
    }
  }

  /** If a save carries a version at or below one a client has read, for another record, the history can be
      continued, without another save, until that client's snapshot passes against a record it never saw. */
  lemma {:induction false} StaleSnapshotPasses(t: Table, id: string, es: seq<Event>, i: nat, j: nat, q: Record,
                                              fields: Attrs, now: int) returns (more: seq<Event>)
    requires i <= j < |es| && es[j].Save? && es[j].id == id && Sees(t, id, es, i, q)
    requires !Supersedes(es[j].record, q) && Bad(fields) == {}
    ensures NotResaved(id, more)
    ensures var after := Run(t, es[..j + 1] + more);
      && id in after && after[id] != q && after[id].version == q.version
      && MemoryAnswer(after, id, q.version, fields, now) == Ok(Updated(after[id], fields, now))
  {
    var saved := Run(t, es[..j + 1]);
    RunNext(t, es, j);
    var other := if q.updatedAt == Some(0) then 1 else 0;
    var n: nat := q.version - saved[id].version;
    more := Bumps(id, saved[id].version, n, other);
    BumpsRun(saved, id, n, other);
    RunConcat(t, es[..j + 1], more);
  }

  /** Snapshots of an id can be trusted in every history that es begins and no further save of the id disturbs, if
      and only if every save in es supersedes all that was read before it. */
  lemma {:induction false} SnapshotsAreSoundExactly(t: Table, id: string, es: seq<Event>)
    ensures Fresh(t, id, es) <==>
      forall k: nat, more | k <= |es| && NotResaved(id, more) :: Sound(t, id, es[..k] + more)
  {
    hide Sound, NotResaved;
    if Fresh(t, id, es) {
      forall k: nat, more | k <= |es| && NotResaved(id, more) ensures Sound(t, id, es[..k] + more) {
        FreshGoesOn(t, id, es, k, more);
        FreshIsSound(t, id, es[..k] + more);
      }
    } else {
      var i: nat, j: nat, q :|
        i <= j < |es| && es[j].Save? && es[j].id == id && Sees(t, id, es, i, q) && !Supersedes(es[j].record, q);
      var more := StaleSnapshotPasses(t, id, es, i, j, q, map[], 0);
      NotSound(t, id, es, i, j, q, more);
    }
  }

  lemma {:induction false} FreshGoesOn(t: Table, id: string, es: seq<Event>, k: nat, more: seq<Event>)
    requires Fresh(t, id, es) && k <= |es| && NotResaved(id, more)
    ensures Fresh(t, id, es[..k] + more)
  {
    var all := es[..k] + more;
    NoLaterSave(id, es, k, more);
    forall i: nat, j: nat, q |
      i <= j < |all| && all[j].Save? && all[j].id == id && Sees(t, id, all, i, q)
      ensures Supersedes(all[j].record, q)
    {
      assert all[..i] == es[..i];
      assert Sees(t, id, es, i, q);
    }
  }

  lemma NoLaterSave(id: string, es: seq<Event>, k: nat, more: seq<Event>)
    requires k <= |es| && NotResaved(id, more)
    ensures var all := es[..k] + more; forall j :: k <= j < |all| && all[j].Save? ==> all[j].id != id
  {
    var all := es[..k] + more;
    forall j | k <= j < |all| && all[j].Save? ensures all[j].id != id {
      assert all[j] == more[j - k];
    }
  }

  lemma {:induction false} NotSound(t: Table, id: string, es: seq<Event>, i: nat, j: nat, q: Record, more: seq<Event>)
    requires i <= j < |es| && Sees(t, id, es, i, q)
    requires var after := Run(t, es[..j + 1] + more); id in after && after[id] != q && after[id].version == q.version
    ensures !Sound(t, id, es[..j + 1] + more)
  {
    var all := es[..j + 1] + more;
    assert all[..i] == es[..i] && all[..|all|] == all;
    assert Sees(t, id, all, i, q) && Sees(t, id, all, |all|, Run(t, all)[id]);
  }

  /** An update that succeeds with the version its client read replaces exactly the record that client saw: nobody's
      change is lost. */
  lemma {:induction false} NoLostUpdate(t: Table, id: string, es: seq<Event>, i: nat, fields: Attrs, now: int)
    requires Fresh(t, id, es) && i <= |es| && id in Run(t, es[..i])
    requires MemoryAnswer(Run(t, es), id, Run(t, es[..i])[id].version, fields, now).Ok?
    ensures var q := Run(t, es[..i])[id];
      Run(t, es)[id] == q && MemoryAnswer(Run(t, es), id, q.version, fields, now) == Ok(Updated(q, fields, now))
  {
    hide Fresh;
    assert es[..|es|] == es;
    var q, r := Run(t, es[..i])[id], Run(t, es)[id];
    LatestSupersedes(t, id, es, i, |es|, q, r);
  }

  lemma NotResavedIsFresh(t: Table, id: string, es: seq<Event>)
    requires NotResaved(id, es)
    ensures Fresh(t, id, es)
  {
  }

  /** In particular, snapshots can be trusted while the id is not saved again. */
  lemma {:induction false} SavedOnceIsSound(t: Table, id: string, es: seq<Event>)
    requires NotResaved(id, es)
    ensures Sound(t, id, es)
  {
    hide Fresh, NotResaved;
    NotResavedIsFresh(t, id, es);
    FreshIsSound(t, id, es);
  }

  /** Re-using the id of a deleted task restarts its version numbers, and then a stale snapshot passes. */
  lemma ResavingDefeatsVersions(id: string, one: Record, other: Record, fields: Attrs, now: int)
    requires one.version == other.version && one != other && Bad(fields) == {}
    ensures var t := Run(map[id := one], [Delete(id), Save(id, other)]);
      MemoryAnswer(t, id, one.version, fields, now).Ok? && t[id] != one
  {
    var es := [Delete(id), Save(id, other)];
    assert es[1..] == [Save(id, other)] && es[1..][1..] == [];
    assert Run(map[id := one] - {id}, es[1..]) == (map[id := one] - {id})[id := other];
  }
}
