/** The status counts of the assignments page: every learning activity, the
    ones still due (due on or after now) and the ones past due. */
module Assignments {
  import opened Records

  /** A learning activity; only its due time decides its status. The due
      time and `now` are full timestamps (e.g. seconds), not days: an activity
      due earlier today is already past due. */
  datatype Activity = Activity(id: int, due: Option<int>)

  /** Activities whose due time is set and not yet passed. */
  function Pending(acts: seq<Activity>, now: int): (r: seq<Activity>)
    ensures |r| <= |acts|
    ensures forall a :: a in r <==> a in acts && a.due.Some? && a.due.value >= now
  {
    if acts == [] then []
    else
      var a := acts[|acts| - 1];
      Pending(acts[..|acts| - 1], now) + (if a.due.Some? && a.due.value >= now then [a] else [])
  }

  /** Activities whose due time is set and already passed. */
  function Completed(acts: seq<Activity>, now: int): (r: seq<Activity>)
    ensures |r| <= |acts|
    ensures forall a :: a in r <==> a in acts && a.due.Some? && a.due.value < now
  {
    if acts == [] then []
    else
      var a := acts[|acts| - 1];
      Completed(acts[..|acts| - 1], now) + (if a.due.Some? && a.due.value < now then [a] else [])
  }

  /** Activities with no due time: in neither list. */
  function Undated(acts: seq<Activity>): (r: seq<Activity>)
    ensures forall a :: a in r <==> a in acts && a.due.None?
  {
    if acts == [] then []
    else
      var a := acts[|acts| - 1];
      Undated(acts[..|acts| - 1]) + (if a.due.None? then [a] else [])
  }

  datatype StatusCounts = StatusCounts(all: nat, pending: nat, completed: nat)

  /** `all_count`, `pending_count` and `completed_count` at time `now`. */
  function AssignmentStatus(acts: seq<Activity>, now: int): (r: StatusCounts)
    ensures r.all == |acts|
    ensures r.pending == |Pending(acts, now)| && r.completed == |Completed(acts, now)|
    ensures r.pending + r.completed + |Undated(acts)| == r.all
    ensures r.pending + r.completed == r.all <==> forall a :: a in acts ==> a.due.Some?
  {
    StatusPartition(acts, now);
    StatusCounts(|acts|, |Pending(acts, now)|, |Completed(acts, now)|)
  }

  /** Every activity is exactly one of pending, completed or undated. */
  lemma {:induction false} StatusPartition(acts: seq<Activity>, now: int)
    ensures |Pending(acts, now)| + |Completed(acts, now)| + |Undated(acts)| == |acts|
    ensures Undated(acts) == [] <==> forall a :: a in acts ==> a.due.Some?
  {
    if acts != [] {
      StatusPartition(acts[..|acts| - 1], now);
    }
    if Undated(acts) != [] {
      assert Undated(acts)[0] in Undated(acts);
    }
  }

  /** As time goes on, activities only move from pending to completed. */
  lemma {:induction false} PendingShrinks(acts: seq<Activity>, now: int, later: int)
    requires now <= later
    ensures |Pending(acts, later)| <= |Pending(acts, now)|
    ensures |Completed(acts, now)| <= |Completed(acts, later)|
    ensures |Pending(acts, later)| + |Completed(acts, later)| == |Pending(acts, now)| + |Completed(acts, now)|
  {
    if acts != [] {
      PendingShrinks(acts[..|acts| - 1], now, later);
    }
  }
}
