/** Which errands a periodic job claims, and in which order. */
module Due {
  import opened Prelude
  import opened Errands

  datatype DueKind = AcceptanceExpiry | PickupDeadline | DeliveryDeadline | VerificationLapse | StuckReservation
      | StuckEdit

  /** The time column of the job's index, when the errand is in the index. */
  function DueAt(k: DueKind, e: Errand): (at: Option<Time>) {
    match k
    case AcceptanceExpiry => if e.status == Open then Some(e.details.acceptanceDeadline) else None
    case PickupDeadline => if e.status == Assigned then e.pickupDeadline else None
    case DeliveryDeadline => if e.status == PickedUp then e.deliveryDeadline else None
    case VerificationLapse => if e.status == Delivered then e.verificationDeadline else None
    case StuckReservation => if e.status == PendingReservation then Some(e.createdAt) else None
    case StuckEdit => if e.pendingEdit.Some? then Some(e.pendingEdit.value.at) else None
  }

  predicate IsDue(k: DueKind, e: Errand, now: Time) {
    DueAt(k, e).Some? && DueAt(k, e).value <= now
  }

  // ---------------------------------------------------------------- order

  predicate TextLess(a: string, b: string) {
    if b == "" then false
    else if a == "" then true
    else if a[0] != b[0] then a[0] < b[0]
    else TextLess(a[1..], b[1..])
  }

  /** Text order: the first difference decides, and a text comes after its proper prefixes. */
  lemma {:induction false} TextLessMeans(a: string, b: string)
    ensures TextLess(a, b) <==>
      exists n: nat :: FirstDifference(a, b, n) && n < |b| && (n == |a| || a[n] < b[n])
  {
    if a != "" && b != "" && a[0] == b[0] {
      TextLessMeans(a[1..], b[1..]);
      assert a == [a[0]] + a[1..] && b == [b[0]] + b[1..];
      forall n: nat | n < |b|
        ensures FirstDifference(a[1..], b[1..], n) <==> FirstDifference(a, b, n + 1)
      {
        assert n <= |a[1..]| && n <= |b[1..]| ==> (a[1..][..n] == b[1..][..n] <==> a[..n + 1] == b[..n + 1]) by {
          if n <= |a[1..]| && n <= |b[1..]| {
            assert a[..n + 1] == [a[0]] + a[1..][..n] && b[..n + 1] == [b[0]] + b[1..][..n];
            assert a[1..n + 1] == a[1..][..n] && b[1..n + 1] == b[1..][..n];
          }
        }
      }
      if n: nat :| FirstDifference(a, b, n) && n < |b| && (n == |a| || a[n] < b[n]) {
        assert n > 0 && FirstDifference(a[1..], b[1..], n - 1);
      }
      if n: nat :| FirstDifference(a[1..], b[1..], n) && n < |b[1..]| && (n == |a[1..]| || a[1..][n] < b[1..][n]) {
        assert FirstDifference(a, b, n + 1);
      }
    } else if b != "" {
      assert FirstDifference(a, b, 0);
    }
  }

  /** They agree up to `n`. */
  ghost predicate FirstDifference(a: string, b: string, n: nat) {
    n <= |a| && n <= |b| && a[..n] == b[..n] && (n < |a| && n < |b| ==> a[n] != b[n])
  }

  lemma {:induction false} TextTotal(a: string, b: string)
    requires a != b
    ensures TextLess(a, b) || TextLess(b, a)
  {
    if a != "" && b != "" && a[0] == b[0] {
      assert a == [a[0]] + a[1..] && b == [b[0]] + b[1..];
      TextTotal(a[1..], b[1..]);
    }
  }

  lemma {:induction false} TextTransitive(a: string, b: string, c: string)
    requires TextLess(a, b) && TextLess(b, c)
    ensures TextLess(a, c)
  {
    if a != "" && a[0] == b[0] == c[0] {
      TextTransitive(a[1..], b[1..], c[1..]);
    }
  }

  /** Oldest first, then by ID. */
  predicate Precedes(k: DueKind, a: Errand, b: Errand) {
    DueAt(k, a).Some? && DueAt(k, b).Some? &&
    (DueAt(k, a).value < DueAt(k, b).value || (DueAt(k, a).value == DueAt(k, b).value && TextLess(a.id, b.id)))
  }

  lemma PrecedesTotal(k: DueKind, a: Errand, b: Errand)
    requires DueAt(k, a).Some? && DueAt(k, b).Some? && a.id != b.id
    ensures Precedes(k, a, b) || Precedes(k, b, a)
  {
    TextTotal(a.id, b.id);
  }

  lemma PrecedesTransitive(k: DueKind, a: Errand, b: Errand, c: Errand)
    requires Precedes(k, a, b) && Precedes(k, b, c)
    ensures Precedes(k, a, c)
  {
    if TextLess(a.id, b.id) && TextLess(b.id, c.id) {
      TextTransitive(a.id, b.id, c.id);
    }
  }

  ghost predicate Sorted(k: DueKind, batch: seq<Errand>) {
    forall i, j :: 0 <= i < j < |batch| ==> Precedes(k, batch[i], batch[j])
  }

  ghost predicate AllDue(errands: map<string, Errand>, k: DueKind, now: Time, ids: set<string>, due: seq<Errand>) {
    forall i :: 0 <= i < |due| ==>
      due[i].id in ids && due[i].id in errands && errands[due[i].id] == due[i] && IsDue(k, due[i], now)
  }

  ghost predicate Complete(errands: map<string, Errand>, k: DueKind, now: Time, ids: set<string>, due: seq<Errand>) {
    forall id :: id in ids && id in errands && IsDue(k, errands[id], now) ==> errands[id] in due
  }

  ghost predicate DistinctIds(due: seq<Errand>) {
    forall i, j :: 0 <= i < j < |due| ==> due[i].id != due[j].id
  }

  /** `due` lists exactly the due errands among `ids`, each once, in order. */
  ghost predicate Lists(errands: map<string, Errand>, k: DueKind, now: Time, ids: set<string>, due: seq<Errand>) {
    AllDue(errands, k, now, ids, due) && Complete(errands, k, now, ids, due) && DistinctIds(due) && Sorted(k, due)
  }

  /** Where a new errand belongs: after those that precede it. */
  method PositionOf(k: DueKind, due: seq<Errand>, e: Errand) returns (p: nat)
    requires Sorted(k, due) && DueAt(k, e).Some?
    requires forall i :: 0 <= i < |due| ==> due[i].id != e.id && DueAt(k, due[i]).Some?
    ensures p <= |due|
    ensures forall i :: 0 <= i < p ==> Precedes(k, due[i], e)
    ensures forall i :: p <= i < |due| ==> Precedes(k, e, due[i])
  {
    p := 0;
    while p < |due| && !Precedes(k, e, due[p])
      invariant p <= |due|
      invariant forall i :: 0 <= i < p ==> Precedes(k, due[i], e)
    {
      PrecedesTotal(k, due[p], e);
      p := p + 1;
    }
    forall i | p <= i < |due|
      ensures Precedes(k, e, due[i])
    {
      if i > p {
        PrecedesTransitive(k, e, due[p], due[i]);
      }
    }
  }

  /** `due` with `e` at position `p`. */
  function Put(due: seq<Errand>, p: nat, e: Errand): (all: seq<Errand>)
    requires p <= |due|
    ensures |all| == |due| + 1
    ensures forall i :: 0 <= i < |all| ==> all[i] == if i < p then due[i] else if i == p then e else due[i - 1]
  {
    due[..p] + [e] + due[p..]
  }

  lemma PutContains(due: seq<Errand>, p: nat, e: Errand, d: Errand)
    requires p <= |due| && (d in due || d == e)
    ensures d in Put(due, p, e)
  {
    if d == e {
      assert Put(due, p, e)[p] == e;
    } else {
      var i :| 0 <= i < |due| && due[i] == d;
      assert Put(due, p, e)[if i < p then i else i + 1] == d;
    }
  }

  lemma PutSorted(k: DueKind, due: seq<Errand>, p: nat, e: Errand)
    requires p <= |due| && Sorted(k, due)
    requires forall i :: 0 <= i < p ==> Precedes(k, due[i], e)
    requires forall i :: p <= i < |due| ==> Precedes(k, e, due[i])
    ensures Sorted(k, Put(due, p, e))
  {
    hide Precedes;
  }

  lemma PutDistinct(due: seq<Errand>, p: nat, e: Errand)
    requires p <= |due| && DistinctIds(due) && forall i :: 0 <= i < |due| ==> due[i].id != e.id
    ensures DistinctIds(Put(due, p, e))
  {
  }

  lemma Inserted(errands: map<string, Errand>, k: DueKind, now: Time, ids: set<string>, due: seq<Errand>, e: Errand,
                 p: nat)
    requires Lists(errands, k, now, ids, due) && e.id !in ids && e.id in errands && errands[e.id] == e
    requires IsDue(k, e, now)
    requires p <= |due|
    requires forall i :: 0 <= i < p ==> Precedes(k, due[i], e)
    requires forall i :: p <= i < |due| ==> Precedes(k, e, due[i])
    ensures Lists(errands, k, now, ids + {e.id}, Put(due, p, e))
  {
    hide Precedes, IsDue, Sorted, DistinctIds, AllDue, Complete, Put;
    PutSorted(k, due, p, e);
    NoSuchId(errands, k, now, ids, due, e.id);
    PutDistinct(due, p, e);
    PutAllDue(errands, k, now, ids, due, e, p);
    PutComplete(errands, k, now, ids, due, e, p);
  }

  lemma NoSuchId(errands: map<string, Errand>, k: DueKind, now: Time, ids: set<string>, due: seq<Errand>, id: string)
    requires AllDue(errands, k, now, ids, due) && id !in ids
    ensures forall i :: 0 <= i < |due| ==> due[i].id != id
  {
    hide IsDue;
  }

  lemma PutAllDue(errands: map<string, Errand>, k: DueKind, now: Time, ids: set<string>, due: seq<Errand>, e: Errand,
                  p: nat)
    requires AllDue(errands, k, now, ids, due) && e.id in errands && errands[e.id] == e && IsDue(k, e, now)
    requires p <= |due|
    ensures AllDue(errands, k, now, ids + {e.id}, Put(due, p, e))
  {
    hide IsDue;
  }

  lemma PutComplete(errands: map<string, Errand>, k: DueKind, now: Time, ids: set<string>, due: seq<Errand>, e: Errand,
                    p: nat)
    requires Complete(errands, k, now, ids, due) && e.id in errands && errands[e.id] == e && p <= |due|
    ensures Complete(errands, k, now, ids + {e.id}, Put(due, p, e))
  {
    hide IsDue, Put;
    forall id | id in ids + {e.id} && id in errands && IsDue(k, errands[id], now)
      ensures errands[id] in Put(due, p, e)
    {
      PutContains(due, p, e, errands[id]);
    }
  }

  /** The due errands in order: SELECT ... WHERE due ORDER BY column, id. */
  method SelectDue(errands: map<string, Errand>, k: DueKind, now: Time, locked: set<string>) returns (due: seq<Errand>)
    requires forall id :: id in errands ==> errands[id].id == id
    ensures Lists(errands, k, now, errands.Keys - locked, due)
  {
    hide IsDue, Lists, Precedes;
    due := [];
    var ids := errands.Keys - locked;
    assert Lists(errands, k, now, ids - ids, due) by { NothingListed(errands, k, now, ids - ids); }
    var rest := ids;
    while rest != {}
      invariant rest <= ids
      invariant Lists(errands, k, now, ids - rest, due)
      decreases |rest|
    {
      var id :| id in rest;
      var e := errands[id];
      if IsDue(k, e, now) {
        ReadyToPlace(errands, k, now, ids - rest, due, e);
        var p := PositionOf(k, due, e);
        Inserted(errands, k, now, ids - rest, due, e, p);
        due := Put(due, p, e);
        assert ids - rest + {id} == ids - (rest - {id});
      } else {
        StillLists(errands, k, now, ids - rest, due, id);
        assert ids - rest + {id} == ids - (rest - {id});
      }
      rest := rest - {id};
    }
    assert ids - rest == ids;
  }

  lemma ReadyToPlace(errands: map<string, Errand>, k: DueKind, now: Time, ids: set<string>, due: seq<Errand>, e: Errand)
    requires Lists(errands, k, now, ids, due) && e.id !in ids && IsDue(k, e, now)
    ensures Sorted(k, due) && DueAt(k, e).Some?
    ensures forall i :: 0 <= i < |due| ==> due[i].id != e.id && DueAt(k, due[i]).Some?
  {
    hide Precedes, DueAt;
  }

  lemma NothingListed(errands: map<string, Errand>, k: DueKind, now: Time, ids: set<string>)
    requires ids == {}
    ensures Lists(errands, k, now, ids, [])
  {
    hide IsDue, Precedes;
  }

  lemma StillLists(errands: map<string, Errand>, k: DueKind, now: Time, ids: set<string>, due: seq<Errand>, id: string)
    requires Lists(errands, k, now, ids, due) && id in errands && !IsDue(k, errands[id], now)
    ensures Lists(errands, k, now, ids + {id}, due)
  {
    hide Precedes, IsDue;
  }
}
