/** The list operations the command handlers apply to a room's queue:
    `filter` by uuid, `findIndex` by uuid, `splice` (remove one / insert one),
    the two-splice move, and `shift`. They are stated on values; the handlers
    assign their results to the room's `queue` field. */
module QueueOps {
  import opened Types

  /** The uuids of a queue, in queue order. */
  function Uuids(q: seq<Song>): (r: seq<string>)
  {
    seq(|q|, i requires 0 <= i < |q| => q[i].uuid)
  }

  /** `queue.findIndex(s => s.uuid === u)`: the first position holding `u`,
      or -1 when no entry has that uuid. */
  function FindIndex(q: seq<Song>, u: string): (r: int)
    ensures -1 <= r < |q|
    ensures r == -1 <==> forall i :: 0 <= i < |q| ==> q[i].uuid != u
    ensures 0 <= r ==> q[r].uuid == u && forall i :: 0 <= i < r ==> q[i].uuid != u
    decreases |q|
  {
    if q == [] then -1
    else if q[0].uuid == u then 0
    else
      var r := FindIndex(q[1..], u);
      if r == -1 then -1 else r + 1
  }

  /** `queue.filter(s => s.uuid !== u)`: no entry with uuid `u` is left,
      and every other entry is kept with its multiplicity. */
  function RemoveByUuid(q: seq<Song>, u: string): (r: seq<Song>)
    ensures forall s: Song :: s in r ==> s.uuid != u
    ensures forall s: Song :: s.uuid != u ==> multiset(r)[s] == multiset(q)[s]
    decreases |q|
  {
    if q == [] then []
    else
      assert q == [q[0]] + q[1..];
      (if q[0].uuid == u then [] else [q[0]]) + RemoveByUuid(q[1..], u)
  }

  /** `a` is `b` with some entries left out, the rest in their order. */
  ghost predicate IsSubsequence<T>(a: seq<T>, b: seq<T>)
    decreases |b|
  {
    a == [] ||
    (b != [] &&
     ((a[0] == b[0] && IsSubsequence(a[1..], b[1..])) || IsSubsequence(a, b[1..])))
  }

  /** The filter keeps the surviving entries in their original relative
      order. */
  lemma {:induction false} RemoveByUuidOrder(q: seq<Song>, u: string)
    ensures IsSubsequence(RemoveByUuid(q, u), q)
    decreases |q|
  {
    if q != [] {
      RemoveByUuidOrder(q[1..], u);
      assert q == [q[0]] + q[1..];
      var rest := RemoveByUuid(q[1..], u);
      if q[0].uuid != u {
        assert RemoveByUuid(q, u) == [q[0]] + rest;
        assert ([q[0]] + rest)[1..] == rest;
      } else {
        assert RemoveByUuid(q, u) == rest;
        SubsequenceOfTail(rest, q);
      }
    }
  }

  lemma SubsequenceOfTail<T>(a: seq<T>, b: seq<T>)
    requires b != [] && IsSubsequence(a, b[1..])
    ensures IsSubsequence(a, b)
  {
  }

  /** Filtering a second time by the same uuid changes nothing. */
  lemma {:induction false} RemoveByUuidIdempotent(q: seq<Song>, u: string)
    ensures RemoveByUuid(RemoveByUuid(q, u), u) == RemoveByUuid(q, u)
    decreases |q|
  {
    if q != [] {
      RemoveByUuidIdempotent(q[1..], u);
      var rest := RemoveByUuid(q[1..], u);
      if q[0].uuid != u {
        assert RemoveByUuid(q, u) == [q[0]] + rest;
        assert ([q[0]] + rest)[1..] == rest;
        assert RemoveByUuid([q[0]] + rest, u) == [q[0]] + RemoveByUuid(rest, u);
      } else {
        assert RemoveByUuid(q, u) == rest;
      }
    }
  }

  /** The filter returns the queue unchanged exactly when no entry has
      uuid `u`. */
  lemma {:induction false} RemoveByUuidUnchanged(q: seq<Song>, u: string)
    ensures RemoveByUuid(q, u) == q <==> forall i :: 0 <= i < |q| ==> q[i].uuid != u
    decreases |q|
  {
    if forall i :: 0 <= i < |q| ==> q[i].uuid != u {
      RemoveByUuidAbsent(q, u);
    } else {
      var i :| 0 <= i < |q| && q[i].uuid == u;
      assert q[i] in q;
    }
  }

  lemma {:induction false} RemoveByUuidAbsent(q: seq<Song>, u: string)
    requires forall i :: 0 <= i < |q| ==> q[i].uuid != u
    ensures RemoveByUuid(q, u) == q
    decreases |q|
  {
    if q != [] {
      RemoveByUuidAbsent(q[1..], u);
      assert q == [q[0]] + q[1..];
    }
  }

  /** `queue.shift()`: the head (`None` for `undefined` when the queue is
      empty) and the queue that remains. */
  function Shift(q: seq<Song>): (r: (Option<Song>, seq<Song>))
    ensures r.0 == None <==> q == []
    ensures r.0 == None ==> r.1 == []
    ensures r.0.Some? ==> [r.0.value] + r.1 == q
  {
    if q == [] then (None, []) else (Some(q[0]), q[1..])
  }

  /** `splice(i, 1)`: the queue without its entry at `i`. */
  function RemoveAt<T>(q: seq<T>, i: int): (r: seq<T>)
    requires 0 <= i < |q|
    ensures |r| == |q| - 1
    ensures forall k :: 0 <= k < i ==> r[k] == q[k]
    ensures forall k :: i <= k < |r| ==> r[k] == q[k + 1]
  {
    q[..i] + q[i + 1..]
  }

  /** `splice(i, 0, x)`: the queue with `x` inserted before position `i`. */
  function InsertAt<T>(q: seq<T>, i: int, x: T): (r: seq<T>)
    requires 0 <= i <= |q|
    ensures |r| == |q| + 1 && r[i] == x
    ensures forall k :: 0 <= k < i ==> r[k] == q[k]
    ensures forall k :: i < k < |r| ==> r[k] == q[k - 1]
  {
    q[..i] + [x] + q[i..]
  }

  /** The move done by `move_in_queue`: take the entry at `from` out, then
      insert it so that it ends up at position `to`. */
  function MoveIndex<T>(q: seq<T>, from: int, to: int): (r: seq<T>)
    requires 0 <= from < |q| && 0 <= to < |q|
    ensures |r| == |q| && r[to] == q[from]
  {
    InsertAt(RemoveAt(q, from), to, q[from])
  }

  /** Where the entry now at `k` was before the move. */
  function MoveSource(from: int, to: int, k: int): (source: int)
  {
    if k == to then from
    else if from < to && from <= k < to then k + 1
    else if to < from && to < k <= from then k - 1
    else k
  }

  /** The move keeps the length, puts the moved entry at `to`, shifts the
      entries between the two positions by one and leaves the rest in place. */
  lemma MoveIndexAt<T>(q: seq<T>, from: int, to: int)
    requires 0 <= from < |q| && 0 <= to < |q|
    ensures |MoveIndex(q, from, to)| == |q|
    ensures MoveIndex(q, from, to)[to] == q[from]
    ensures forall k :: 0 <= k < |q| ==>
      0 <= MoveSource(from, to, k) < |q| && MoveIndex(q, from, to)[k] == q[MoveSource(from, to, k)]
  {
  }

  lemma SplitAt<T>(q: seq<T>, i: int)
    requires 0 <= i < |q|
    ensures q == q[..i] + [q[i]] + q[i + 1..]
  {
  }

  /** Removing an entry leaves the multiset of the queue minus that entry. */
  lemma RemoveAtMultiset<T>(q: seq<T>, i: int)
    requires 0 <= i < |q|
    ensures multiset(RemoveAt(q, i)) + multiset{q[i]} == multiset(q)
  {
    SplitAt(q, i);
  }

  lemma InsertAtMultiset<T>(q: seq<T>, i: int, x: T)
    requires 0 <= i <= |q|
    ensures multiset(InsertAt(q, i, x)) == multiset(q) + multiset{x}
  {
    assert q == q[..i] + q[i..];
  }

  /** The move is a permutation of the queue. */
  lemma MoveIndexPermutation<T>(q: seq<T>, from: int, to: int)
    requires 0 <= from < |q| && 0 <= to < |q|
    ensures multiset(MoveIndex(q, from, to)) == multiset(q)
  {
    RemoveAtMultiset(q, from);
    InsertAtMultiset(RemoveAt(q, from), to, q[from]);
  }

  /** Moving an entry onto its own position changes nothing. */
  lemma MoveIndexSameIndex<T>(q: seq<T>, i: int)
    requires 0 <= i < |q|
    ensures MoveIndex(q, i, i) == q
  {
  }

  /** Moving back from `to` to `from` restores the original queue. */
  lemma MoveIndexInverse<T>(q: seq<T>, from: int, to: int)
    requires 0 <= from < |q| && 0 <= to < |q|
    ensures MoveIndex(MoveIndex(q, from, to), to, from) == q
  {
  }

  // ---------------------------------------------------------------------
  // Uuid bookkeeping: which uuids a room holds, counted with multiplicity.

  /** Every uuid held by the queue and the current song, with multiplicity. */
  ghost function UuidBag(q: seq<Song>, current: Option<Song>): multiset<string>
  {
    multiset(Uuids(q)) + (if current.Some? then multiset{current.value.uuid} else multiset{})
  }

  /** No uuid occurs twice. */
  ghost predicate NoRepeats(m: multiset<string>)
  {
    forall x :: m[x] <= 1
  }

  lemma UuidsAppend(a: seq<Song>, b: seq<Song>)
    ensures Uuids(a + b) == Uuids(a) + Uuids(b)
  {
  }

  /** Filtering by uuid never adds a uuid. */
  lemma {:induction false} RemoveByUuidUuids(q: seq<Song>, u: string)
    ensures multiset(Uuids(RemoveByUuid(q, u))) <= multiset(Uuids(q))
    decreases |q|
  {
    if q != [] {
      RemoveByUuidUuids(q[1..], u);
      var rest := RemoveByUuid(q[1..], u);
      var head: seq<Song> := if q[0].uuid == u then [] else [q[0]];
      UuidsAppend(head, rest);
      UuidsAppend([q[0]], q[1..]);
      assert q == [q[0]] + q[1..];
    }
  }

  /** Taking the entry at `i` out of the queue takes exactly its uuid out. */
  lemma RemoveAtUuids(q: seq<Song>, i: int)
    requires 0 <= i < |q|
    ensures multiset(Uuids(RemoveAt(q, i))) + multiset{q[i].uuid} == multiset(Uuids(q))
  {
    UuidsAppend(q[..i], q[i + 1..]);
    UuidsAppend(q[..i] + [q[i]], q[i + 1..]);
    UuidsAppend(q[..i], [q[i]]);
    SplitAt(q, i);
  }

  /** Moving an entry keeps the uuids of the queue. */
  lemma MoveIndexUuids(q: seq<Song>, from: int, to: int)
    requires 0 <= from < |q| && 0 <= to < |q|
    ensures multiset(Uuids(MoveIndex(q, from, to))) == multiset(Uuids(q))
  {
    var rest := RemoveAt(q, from);
    RemoveAtUuids(q, from);
    UuidsAppend(rest[..to], [q[from]]);
    UuidsAppend(rest[..to] + [q[from]], rest[to..]);
    UuidsAppend(rest[..to], rest[to..]);
    assert rest == rest[..to] + rest[to..];
  }

  /** With no uuid repeated, the current song's uuid is not in the queue:
      the current song is never also waiting in the queue. */
  lemma CurrentNotQueued(q: seq<Song>, current: Song)
    requires NoRepeats(UuidBag(q, Some(current)))
    ensures forall i :: 0 <= i < |q| ==> q[i].uuid != current.uuid
  {
    forall i | 0 <= i < |q|
      ensures q[i].uuid != current.uuid
    {
      var x := q[i].uuid;
      assert Uuids(q)[i] == x;
      assert multiset(Uuids(q))[x] >= 1;
      assert UuidBag(q, Some(current))[x] ==
        multiset(Uuids(q))[x] + (if x == current.uuid then 1 else 0);
    }
  }
}
