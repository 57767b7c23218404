/** The browser's setTimeout/clearTimeout made explicit: a list of pending
    events with unique, cancellable ids and a clock. Timers fire earliest due
    first; among timers due at the same instant, the one registered first. */
module Timers {

  datatype Timer<E> = Timer(id: nat, due: int, event: E)

  datatype Queue<E> = Queue(now: int, nextId: nat, pending: seq<Timer<E>>)

  /** Browser timer handles are positive, so the first id handed out is 1. */
  function Empty<E(==,!new)>(now: int): (q: Queue<E>)
    ensures Valid(q) && q.pending == []
  {
    Queue(now, 1, [])
  }

  /** Ids are positive, fresh below `nextId` and pairwise distinct; nothing
      pending is overdue. */
  ghost predicate Valid<E(!new)>(q: Queue<E>)
  {
    && 1 <= q.nextId
    && (forall t :: t in q.pending ==> 1 <= t.id < q.nextId && q.now <= t.due)
    && DistinctIds(q.pending)
  }

  predicate IsPending<E(==,!new)>(q: Queue<E>, id: nat)
  {
    exists t :: t in q.pending && t.id == id
  }

  /** setTimeout(event, delay): the new timer goes to the end of the list and
      its id is returned. */
  function Schedule<E(==,!new)>(q: Queue<E>, delay: nat, e: E): (r: (Queue<E>, nat))
    ensures r.1 == q.nextId && r.0.nextId == q.nextId + 1 && r.0.now == q.now
    ensures r.0.pending == q.pending + [Timer(r.1, q.now + delay, e)]
    ensures Valid(q) ==> Valid(r.0) && !IsPending(q, r.1)
  {
    (Queue(q.now, q.nextId + 1, q.pending + [Timer(q.nextId, q.now + delay, e)]), q.nextId)
  }

  /** The timers of `s` whose id differs from `id`, in order. */
  function Without<E(==,!new)>(s: seq<Timer<E>>, id: nat): (r: seq<Timer<E>>)
    ensures forall t :: t in r <==> t in s && t.id != id
    ensures |r| <= |s|
  {
    if s == [] then []
    else if s[0].id == id then Without(s[1..], id)
    else [s[0]] + Without(s[1..], id)
  }

  /** Ids of `s` are pairwise distinct. */
  ghost predicate DistinctIds<E(!new)>(s: seq<Timer<E>>)
  {
    forall i, j :: 0 <= i < j < |s| ==> s[i].id != s[j].id
  }

  lemma {:induction false} WithoutKeepsDistinct<E(!new)>(s: seq<Timer<E>>, id: nat)
    ensures DistinctIds(s) ==> DistinctIds(Without(s, id))
  {
    if s != [] && DistinctIds(s) {
      WithoutKeepsDistinct(s[1..], id);
      var rest := Without(s[1..], id);
      if s[0].id != id {
        var r := [s[0]] + rest;
        forall i, j | 0 <= i < j < |r| ensures r[i].id != r[j].id {
          if i == 0 {
            assert r[j] in rest;
            assert r[j] in s[1..];
          } else {
            assert r[i] == rest[i - 1] && r[j] == rest[j - 1];
          }
        }
      }
    }
  }

  lemma WithoutAbsent<E(!new)>(s: seq<Timer<E>>, id: nat)
    ensures (forall t :: t in s ==> t.id != id) ==> Without(s, id) == s
  {
    if s != [] && (forall t :: t in s ==> t.id != id) {
      WithoutAbsent(s[1..], id);
      assert s == [s[0]] + s[1..];
    }
  }

  /** clearTimeout(id): the timer with that id, if still pending, will never
      fire; every other timer is kept in order; an unknown id is a no-op. */
  function Cancel<E(==,!new)>(q: Queue<E>, id: nat): (r: Queue<E>)
    ensures r.now == q.now && r.nextId == q.nextId
    ensures forall t :: t in r.pending <==> t in q.pending && t.id != id
    ensures !IsPending(r, id)
    ensures Valid(q) ==> Valid(r)
    ensures !IsPending(q, id) ==> r == q
  {
    WithoutKeepsDistinct(q.pending, id);
    WithoutAbsent(q.pending, id);
    Queue(q.now, q.nextId, Without(q.pending, id))
  }

  /** Index of the timer that fires next: minimal due, first registered among
      equals. */
  function Earliest<E(==,!new)>(s: seq<Timer<E>>): (i: nat)
    requires |s| > 0
    ensures i < |s|
    ensures forall j :: 0 <= j < |s| ==> s[i].due <= s[j].due
    ensures forall j :: 0 <= j < i ==> s[i].due < s[j].due
  {
    if |s| == 1 then 0
    else
      var k := Earliest(s[1..]);
      if s[0].due <= s[k + 1].due then 0 else k + 1
  }

  /** Removing the element at index `i` keeps every other element, and keeps
      ids distinct. */
  lemma RemoveAtFacts<E(!new)>(s: seq<Timer<E>>, i: nat)
    requires i < |s|
    ensures forall u :: u in s[..i] + s[i + 1..] ==> u in s
    ensures forall j :: 0 <= j < |s| && j != i ==> s[j] in s[..i] + s[i + 1..]
    ensures DistinctIds(s) ==> DistinctIds(s[..i] + s[i + 1..])
    ensures DistinctIds(s) ==> forall u :: u in s[..i] + s[i + 1..] ==> u.id != s[i].id
  {
    var rest := s[..i] + s[i + 1..];
    assert |rest| == |s| - 1;
    forall k | 0 <= k < |rest| ensures rest[k] == s[if k < i then k else k + 1] {
    }
    forall j | 0 <= j < |s| && j != i ensures s[j] in rest {
      if j < i { assert rest[j] == s[j]; } else { assert rest[j - 1] == s[j]; }
    }
    if DistinctIds(s) {
      forall a, b | 0 <= a < b < |rest| ensures rest[a].id != rest[b].id {
        var a' := if a < i then a else a + 1;
        var b' := if b < i then b else b + 1;
        assert rest[a] == s[a'] && rest[b] == s[b'];
      }
      forall u | u in rest ensures u.id != s[i].id {
        var k :| 0 <= k < |rest| && rest[k] == u;
      }
    }
  }

  /** The timer that fires next, and the queue after it left the list, with
      the clock moved to its due time. */
  function PopNext<E(==,!new)>(q: Queue<E>): (r: (Timer<E>, Queue<E>))
    requires q.pending != []
    ensures r.0 in q.pending
    ensures forall t :: t in q.pending ==> r.0.due <= t.due
    ensures r.1.nextId == q.nextId
    ensures r.1.now == if q.now <= r.0.due then r.0.due else q.now
    ensures forall t :: t in r.1.pending ==> t in q.pending
    ensures forall t :: t in q.pending && t.id != r.0.id ==> t in r.1.pending
    ensures Valid(q) ==> Valid(r.1) && !IsPending(r.1, r.0.id)
  {
    var i := Earliest(q.pending);
    var t := q.pending[i];
    var now := if q.now <= t.due then t.due else q.now;
    var rest := q.pending[..i] + q.pending[i + 1..];
    RemoveAtFacts(q.pending, i);
    (t, Queue(now, q.nextId, rest))
  }

  /** clearTimeout of each handle of a list, in order. */
  function CancelAll<E(==,!new)>(q: Queue<E>, ids: seq<nat>): (r: Queue<E>)
    ensures r.now == q.now && r.nextId == q.nextId
    ensures forall t :: t in r.pending <==> t in q.pending && t.id !in ids
    ensures Valid(q) ==> Valid(r)
    decreases |ids|
  {
    if ids == [] then q
    else CancelAll(Cancel(q, ids[0]), ids[1..])
  }

  /** Cancelling twice is cancelling once. */
  lemma {:induction false} CancelIdempotent<E(!new)>(q: Queue<E>, id: nat)
    ensures Cancel(Cancel(q, id), id) == Cancel(q, id)
  {
  }

  /** A timer that was cancelled can never be the one that fires. */
  lemma CancelledNeverFires<E(!new)>(q: Queue<E>, id: nat)
    requires Cancel(q, id).pending != []
    ensures PopNext(Cancel(q, id)).0.id != id
  {
  }
}
