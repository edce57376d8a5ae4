/** The dashboard's recent submissions: the last ten, oldest first. */
module Recent {
  /** How many submissions the dashboard lists. */
  const RecentLimit: nat := 10

  /** `submissions[-10:]` when there are more than ten, else all of them. */
  function RecentSubmissions<T>(subs: seq<T>): (r: seq<T>)
    ensures |r| == if |subs| > RecentLimit then RecentLimit else |subs|
    ensures subs == subs[..|subs| - |r|] + r
  {
    if |subs| > RecentLimit then subs[|subs| - RecentLimit..] else subs
  }

  /** Taking the recent ones again changes nothing. */
  lemma RecentIdempotent<T>(subs: seq<T>)
    ensures RecentSubmissions(RecentSubmissions(subs)) == RecentSubmissions(subs)
  {
    assert |RecentSubmissions(subs)| <= RecentLimit;
  }

  /** A new submission enters the window at the end; the oldest one leaves
      only when the window was already full. */
  lemma RecentSnoc<T>(subs: seq<T>, x: T)
    ensures RecentSubmissions(subs + [x]) ==
      (if |subs| >= RecentLimit then RecentSubmissions(subs)[1..] else RecentSubmissions(subs)) + [x]
  {
    var r := RecentSubmissions(subs + [x]);
    var prev := RecentSubmissions(subs);
    if |subs| >= RecentLimit {
      assert prev == subs[|subs| - RecentLimit..];
      assert r == (subs + [x])[|subs| + 1 - RecentLimit..];
      assert prev[1..] + [x] == (subs + [x])[|subs| + 1 - RecentLimit..];
    }
  }
}
