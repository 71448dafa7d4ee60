// The bounded history of dispatched notifications (dispatch/history.go).
//
// Pushing appends, sorts newest first and drops the last entry when the bound is exceeded. Go's
// sort is not stable, so the specification fixes nothing about the order of equal dates.
module History {

  import opened Basics
  import opened Notifications

  /** Parses an RFC 3339 date; None stands for a parse failure. */
  type DateParser = string -> Option<int>

  /** The year-1 zero time, which an unparsable date counts as. */
  const ZERO_TIME: int := 0

  function DateOf(parse: DateParser, n: NotificationModel): int {
    match parse(n.lastModified)
    case Some(t) => t
    case None => ZERO_TIME
  }

  ghost predicate Descending(parse: DateParser, ns: seq<NotificationModel>) {
    forall i, j :: 0 <= i < j < |ns| ==> DateOf(parse, ns[i]) >= DateOf(parse, ns[j])
  }

  /** One of the orders the unstable sort may leave a sequence in. */
  ghost predicate IsSortOf(parse: DateParser, sorted: seq<NotificationModel>, ns: seq<NotificationModel>) {
    multiset(sorted) == multiset(ns) && Descending(parse, sorted)
  }

  function DropExcess(size: int, ns: seq<NotificationModel>): seq<NotificationModel> {
    if |ns| > size && |ns| > 0 then ns[..|ns| - 1] else ns
  }

  ghost predicate PushedTo(parse: DateParser, size: int, before: seq<NotificationModel>, n: NotificationModel,
                           after: seq<NotificationModel>) {
    exists sorted :: IsSortOf(parse, sorted, before + [n]) && after == DropExcess(size, sorted)
  }

  function Capacity(size: int): nat {
    if size < 0 then 0 else size
  }

  function Min(a: int, b: int): int {
    if a <= b then a else b
  }

  /** `kept` is the newest part of everything in `all`, up to equal dates. */
  ghost predicate KeepsNewest(parse: DateParser, size: int, all: seq<NotificationModel>, kept: seq<NotificationModel>) {
    && Descending(parse, kept)
    && |kept| == Min(|all|, Capacity(size))
    && multiset(kept) <= multiset(all)
    && forall evicted, retained {:trigger DateOf(parse, evicted), DateOf(parse, retained)} ::
         evicted in multiset(all) - multiset(kept) && retained in kept ==>
           DateOf(parse, evicted) <= DateOf(parse, retained)
  }

  /** Any order the sort may leave is a legitimate outcome of a push. */
  lemma SortedPush(parse: DateParser, size: int, before: seq<NotificationModel>, n: NotificationModel,
                   sorted: seq<NotificationModel>)
    requires IsSortOf(parse, sorted, before + [n])
    ensures PushedTo(parse, size, before, n, DropExcess(size, sorted))
  {
  }

  // ---------------------------------------------------------------- evicting one at a time

  lemma SubMultisetOfSameSize<T>(a: multiset<T>, b: multiset<T>)
    requires a <= b && |a| == |b|
    ensures a == b
  {
    assert b == a + (b - a);
    assert |b - a| == 0;
  }

  /** Book-keeping of one eviction: `o` joins what was evicted before. */
  lemma EvictedGrows<T>(all: multiset<T>, kept: multiset<T>, n: T, after: multiset<T>, o: T)
    requires kept <= all
    requires kept + multiset{n} == after + multiset{o}
    ensures all + multiset{n} - after == (all - kept) + multiset{o}
    ensures after <= all + multiset{n}
    ensures n !in kept && n in after ==> o in kept
  {
    forall x
      ensures (all + multiset{n} - after)[x] == (all - kept + multiset{o})[x]
      ensures after[x] <= (all + multiset{n})[x]
    {
      assert (kept + multiset{n})[x] == (after + multiset{o})[x];
    }
    if n !in kept && n in after {
      assert (kept + multiset{n})[o] == (after + multiset{o})[o];
      assert (kept + multiset{n})[n] == (after + multiset{o})[n];
    }
  }

  /** The central step: pushing keeps the newest, whatever order the sort gives equal dates. */
  lemma PushKeepsNewest(parse: DateParser, size: int, all: seq<NotificationModel>, kept: seq<NotificationModel>,
                        n: NotificationModel, after: seq<NotificationModel>)
    requires KeepsNewest(parse, size, all, kept)
    requires PushedTo(parse, size, kept, n, after)
    ensures KeepsNewest(parse, size, all + [n], after)
  {
    var sorted :| IsSortOf(parse, sorted, kept + [n]) && after == DropExcess(size, sorted);
    assert multiset(sorted) == multiset(kept) + multiset{n};
    assert |sorted| == |kept| + 1 by {
      assert |multiset(sorted)| == |sorted|;
    }
    if |all| < Capacity(size) {
      SubMultisetOfSameSize(multiset(kept), multiset(all));
    } else {
      PushEvicts(parse, size, all, kept, n, sorted);
    }
  }

  lemma EvictedAreOlder(parse: DateParser, evicted: multiset<NotificationModel>, kept: seq<NotificationModel>,
                        n: NotificationModel, after: seq<NotificationModel>, oldest: NotificationModel,
                        e: NotificationModel, r: NotificationModel)
    requires Descending(parse, after + [oldest])
    requires multiset(kept) + multiset{n} == multiset(after) + multiset{oldest}
    requires n !in kept && n in after ==> oldest in kept
    requires e in evicted ==> forall k :: k in kept ==> DateOf(parse, e) <= DateOf(parse, k)
    requires (e in evicted || e == oldest) && r in after
    ensures DateOf(parse, e) <= DateOf(parse, r)
  {
    var k :| 0 <= k < |after| && after[k] == r;
    assert DateOf(parse, (after + [oldest])[k]) >= DateOf(parse, (after + [oldest])[|after|]);
    if e in evicted && r !in kept {
      assert r in multiset(after) && r in multiset(kept) + multiset{n};
    }
  }

  lemma PushEvicts(parse: DateParser, size: int, all: seq<NotificationModel>, kept: seq<NotificationModel>,
                   n: NotificationModel, sorted: seq<NotificationModel>)
    requires KeepsNewest(parse, size, all, kept) && |all| >= Capacity(size)
    requires Descending(parse, sorted) && |sorted| == |kept| + 1
    requires multiset(sorted) == multiset(kept) + multiset{n}
    ensures KeepsNewest(parse, size, all + [n], sorted[..|kept|])
  {
    var after, oldest := sorted[..|kept|], sorted[|kept|];
    assert sorted == after + [oldest];
    EvictedGrows(multiset(all), multiset(kept), n, multiset(after), oldest);
    var evicted := multiset(all) - multiset(kept);
    assert multiset(all + [n]) - multiset(after) == evicted + multiset{oldest};
    forall e, r | e in evicted + multiset{oldest} && r in after
      ensures DateOf(parse, e) <= DateOf(parse, r)
    {
      EvictedAreOlder(parse, evicted, kept, n, after, oldest, e, r);
    }
  }

  // ---------------------------------------------------------------- sorting everything

  /** The front entries of `b`, down to a notification as new as its first, all share its date. */
  lemma SameDateUpTo(parse: DateParser, b: seq<NotificationModel>, j: nat)
    requires Descending(parse, b) && j < |b|
    requires DateOf(parse, b[j]) >= DateOf(parse, b[0])
    ensures Descending(parse, Without(b, j))
    ensures forall i :: 0 <= i < |b| - 1 ==> DateOf(parse, Without(b, j)[i]) == DateOf(parse, b[i + 1])
  {
  }

  /** Two sorts of the same notifications show the same dates; only equal dates can trade places. */
  lemma {:induction false} SortsAgreeOnDates(parse: DateParser, a: seq<NotificationModel>, b: seq<NotificationModel>)
    requires Descending(parse, a) && Descending(parse, b) && multiset(a) == multiset(b)
    ensures |a| == |b|
    ensures forall i :: 0 <= i < |a| ==> DateOf(parse, a[i]) == DateOf(parse, b[i])
  {
    assert |multiset(a)| == |a| && |multiset(b)| == |b|;
    if a != [] {
      var j := SamePlace(a, b);
      assert DateOf(parse, b[0]) <= DateOf(parse, a[0]) by {
        assert b[0] in multiset(a);
      }
      SameDateUpTo(parse, b, j);
      SortsAgreeOnDates(parse, a[1..], Without(b, j));
      forall i | 0 < i < |a|
        ensures DateOf(parse, a[i]) == DateOf(parse, b[i])
      {
        assert DateOf(parse, a[1..][i - 1]) == DateOf(parse, Without(b, j)[i - 1]);
      }
    }
  }

  lemma SamePlace<T>(a: seq<T>, b: seq<T>) returns (j: nat)
    requires a != [] && multiset(a) == multiset(b)
    ensures j < |b| && b[j] == a[0]
    ensures multiset(a[1..]) == multiset(Without(b, j))
  {
    assert a[0] in multiset(b);
    j :| 0 <= j < |b| && b[j] == a[0];
    WithoutMultiset(b, j);
    WithoutMultiset(a, 0);
    assert Without(a, 0) == a[1..];
    assert multiset(a[1..]) == multiset(a) - multiset{a[0]};
  }

  lemma OtherThan<T>(u: seq<T>, n: T, rest: seq<T>, x: T)
    requires multiset(u) == multiset([n] + rest) && x in u
    ensures x == n || x in rest
  {
    assert x in multiset(u);
    assert multiset([n] + rest) == multiset{n} + multiset(rest);
  }

  lemma PrependMultiset<T>(first: T, u: seq<T>, n: T, rest: seq<T>)
    requires multiset(u) == multiset([n] + rest)
    ensures multiset([first] + u) == multiset([n] + ([first] + rest))
  {
  }

  lemma Prepend(parse: DateParser, first: NotificationModel, u: seq<NotificationModel>, n: NotificationModel,
                rest: seq<NotificationModel>)
    requires IsSortOf(parse, u, [n] + rest) && Descending(parse, [first] + rest)
    requires DateOf(parse, first) >= DateOf(parse, n)
    ensures IsSortOf(parse, [first] + u, [n] + ([first] + rest))
  {
    PrependMultiset(first, u, n, rest);
    forall x | x in u
      ensures DateOf(parse, first) >= DateOf(parse, x)
    {
      OtherThan(u, n, rest, x);
      if x in rest {
        var k :| 0 <= k < |rest| && rest[k] == x;
        assert DateOf(parse, ([first] + rest)[0]) >= DateOf(parse, ([first] + rest)[k + 1]);
      }
    }
  }

  lemma {:induction false} Insert(parse: DateParser, s: seq<NotificationModel>, n: NotificationModel)
    returns (t: seq<NotificationModel>)
    requires Descending(parse, s)
    ensures IsSortOf(parse, t, [n] + s)
    decreases |s|
  {
    if s == [] || DateOf(parse, n) >= DateOf(parse, s[0]) {
      t := [n] + s;
    } else {
      var u := Insert(parse, s[1..], n);
      assert s == [s[0]] + s[1..];
      Prepend(parse, s[0], u, n, s[1..]);
      t := [s[0]] + u;
    }
  }

  lemma {:induction false} SortExists(parse: DateParser, m: multiset<NotificationModel>)
    returns (t: seq<NotificationModel>)
    ensures multiset(t) == m && Descending(parse, t)
    decreases |m|
  {
    if m == multiset{} {
      t := [];
    } else {
      var n :| n in m;
      var u := SortExists(parse, m - multiset{n});
      t := Insert(parse, u, n);
    }
  }

  /**
   * Evicting one at a time is sorting everything and truncating: position by position the history
   * shows the dates of any full sort of everything ever pushed.
   */
  lemma NewestIsSortedPrefix(parse: DateParser, size: int, all: seq<NotificationModel>,
                             kept: seq<NotificationModel>, sorted: seq<NotificationModel>)
    requires KeepsNewest(parse, size, all, kept)
    requires IsSortOf(parse, sorted, all)
    ensures |kept| <= |sorted|
    ensures forall i :: 0 <= i < |kept| ==> DateOf(parse, kept[i]) == DateOf(parse, sorted[i])
  {
    var evicted := multiset(all) - multiset(kept);
    var rest := SortExists(parse, evicted);
    var whole := kept + rest;
    forall i, j | 0 <= i < j < |whole|
      ensures DateOf(parse, whole[i]) >= DateOf(parse, whole[j])
    {
      if i < |kept| <= j {
        assert rest[j - |kept|] in evicted;
        assert kept[i] in kept;
      }
    }
    assert multiset(whole) == multiset(all);
    SortsAgreeOnDates(parse, whole, sorted);
    forall i | 0 <= i < |kept|
      ensures DateOf(parse, kept[i]) == DateOf(parse, sorted[i])
    {
      assert whole[i] == kept[i];
    }
  }

  /**
   * The order in terms of the dates themselves: newest first, and nothing evicted is newer than what
   * is retained; a date that does not parse counts as the zero time.
   */
  lemma NewestByDate(parse: DateParser, size: int, all: seq<NotificationModel>, kept: seq<NotificationModel>)
    requires KeepsNewest(parse, size, all, kept)
    ensures forall i, j :: 0 <= i < j < |kept| ==>
      NotOlder(parse(kept[i].lastModified), parse(kept[j].lastModified))
    ensures forall evicted, retained :: evicted in multiset(all) - multiset(kept) && retained in kept ==>
      NotOlder(parse(retained.lastModified), parse(evicted.lastModified))
  {
    forall i, j | 0 <= i < j < |kept|
      ensures NotOlder(parse(kept[i].lastModified), parse(kept[j].lastModified))
    {
      assert DateOf(parse, kept[i]) >= DateOf(parse, kept[j]);
    }
    forall evicted, retained | evicted in multiset(all) - multiset(kept) && retained in kept
      ensures NotOlder(parse(retained.lastModified), parse(evicted.lastModified))
    {
      assert DateOf(parse, evicted) <= DateOf(parse, retained);
    }
  }

  predicate NotOlder(a: Option<int>, b: Option<int>) {
    match (a, b)
    case (Some(x), Some(y)) => x >= y
    case (Some(x), None) => x >= 0
    case (None, Some(y)) => 0 >= y
    case (None, None) => true
  }

  /** A history after each prefix of a list of pushes. */
  ghost predicate IsRun(parse: DateParser, size: int, pushes: seq<NotificationModel>,
                        states: seq<seq<NotificationModel>>) {
    && |states| == |pushes| + 1
    && states[0] == []
    && forall i :: 0 <= i < |pushes| ==> PushedTo(parse, size, states[i], pushes[i], states[i + 1])
  }

  lemma {:induction false} NewestSoFar(parse: DateParser, size: int, pushes: seq<NotificationModel>,
                                       states: seq<seq<NotificationModel>>, i: nat)
    requires IsRun(parse, size, pushes, states) && i <= |pushes|
    ensures KeepsNewest(parse, size, pushes[..i], states[i])
  {
    if i > 0 {
      var before, n := pushes[..i - 1], pushes[i - 1];
      assert pushes[..i] == before + [n];
      NewestSoFar(parse, size, pushes, states, i - 1);
      assert PushedTo(parse, size, states[i - 1], n, states[i - 1 + 1]);
      PushKeepsNewest(parse, size, before, states[i - 1], n, states[i]);
    }
  }

  /** After any sequence of pushes the history holds the newest notifications ever pushed. */
  lemma HistoryIsNewest(parse: DateParser, size: int, pushes: seq<NotificationModel>,
                        states: seq<seq<NotificationModel>>)
    requires IsRun(parse, size, pushes, states)
    ensures KeepsNewest(parse, size, pushes, states[|pushes|])
  {
    NewestSoFar(parse, size, pushes, states, |pushes|);
    assert pushes[..|pushes|] == pushes;
  }

  // ---------------------------------------------------------------- the object

  function Swapped<T>(s: seq<T>, i: nat, j: nat): seq<T>
    requires i < |s| && j < |s|
  {
    s[i := s[j]][j := s[i]]
  }

  /** Everything up to `i` is in order except that the entry at `j` may belong further forward. */
  ghost predicate Sifting(parse: DateParser, s: seq<NotificationModel>, j: nat, i: nat)
    requires i < |s|
  {
    forall p, q :: 0 <= p < q <= i && q != j ==> DateOf(parse, s[p]) >= DateOf(parse, s[q])
  }

  lemma SiftStep(parse: DateParser, s: seq<NotificationModel>, j: nat, i: nat)
    requires 0 < j <= i < |s| && Sifting(parse, s, j, i)
    requires DateOf(parse, s[j - 1]) < DateOf(parse, s[j])
    ensures Sifting(parse, Swapped(s, j, j - 1), j - 1, i)
  {
  }

  lemma SiftDone(parse: DateParser, s: seq<NotificationModel>, j: nat, i: nat)
    requires j <= i < |s| && Sifting(parse, s, j, i)
    requires j == 0 || DateOf(parse, s[j - 1]) >= DateOf(parse, s[j])
    ensures Descending(parse, s[..i + 1])
  {
  }

  method Swap(a: array<NotificationModel>, i: nat, j: nat)
    requires i < a.Length && j < a.Length
    modifies a
    ensures a[..] == Swapped(old(a[..]), i, j)
  {
    a[i], a[j] := a[j], a[i];
  }

  /** A swap within the first `n` entries permutes those and leaves the rest. */
  lemma SwapWithin<T>(s: seq<T>, i: nat, j: nat, n: nat)
    requires i < n <= |s| && j < n
    ensures multiset(Swapped(s, i, j)[..n]) == multiset(s[..n])
    ensures Swapped(s, i, j)[n..] == s[n..]
  {
  }

  /** What one swap of a sift does to the cells, seen as a sequence. */
  lemma SwapDownCells(parse: DateParser, s: seq<NotificationModel>, t: seq<NotificationModel>, j: nat, i: nat, n: nat)
    requires 0 < j <= i < n <= |s| && Sifting(parse, s, j, i)
    requires DateOf(parse, s[j - 1]) < DateOf(parse, s[j])
    requires t == Swapped(s, j, j - 1)
    ensures Sifting(parse, t, j - 1, i) && multiset(t[..n]) == multiset(s[..n]) && t[n..] == s[n..]
  {
    SiftStep(parse, s, j, i);
    SwapWithin(s, j, j - 1, n);
  }

  method SwapDown(parse: DateParser, a: array<NotificationModel>, j: nat, i: nat, n: nat)
    requires 0 < j <= i < n <= a.Length && Sifting(parse, a[..], j, i)
    requires DateOf(parse, a[j - 1]) < DateOf(parse, a[j])
    modifies a
    ensures Sifting(parse, a[..], j - 1, i)
    ensures multiset(a[..][..n]) == old(multiset(a[..][..n]))
    ensures a[..][n..] == old(a[..][n..])
  {
    ghost var s := a[..];
    Swap(a, j, j - 1);
    SwapDownCells(parse, s, a[..], j, i, n);
  }

  /** Moves cell `i` down to its place among the sorted cells before it. */
  method SiftDown(parse: DateParser, a: array<NotificationModel>, i: nat, n: nat)
    requires i < n <= a.Length
    requires Descending(parse, a[..][..i])
    modifies a
    ensures Descending(parse, a[..][..i + 1])
    ensures multiset(a[..][..n]) == old(multiset(a[..][..n]))
    ensures a[..][n..] == old(a[..][n..])
  {
    var j := i;
    assert forall p :: 0 <= p < i ==> a[..][..i][p] == a[..][p];
    while j > 0 && DateOf(parse, a[j - 1]) < DateOf(parse, a[j])
      invariant 0 <= j <= i
      invariant Sifting(parse, a[..], j, i)
      invariant multiset(a[..][..n]) == old(multiset(a[..][..n]))
      invariant a[..][n..] == old(a[..][n..])
    {
      SwapDown(parse, a, j, i, n);
      j := j - 1;
    }
    SiftDone(parse, a[..], j, i);
  }

  /** Sorts the first `n` cells newest first, leaving the rest of the array alone. */
  method SortDescending(parse: DateParser, a: array<NotificationModel>, n: nat)
    requires n <= a.Length
    modifies a
    ensures IsSortOf(parse, a[..n], old(a[..n]))
    ensures a[n..] == old(a[n..])
  {
    var i := 0;
    while i < n
      invariant 0 <= i <= n
      invariant Descending(parse, a[..][..i])
      invariant multiset(a[..][..n]) == old(multiset(a[..][..n]))
      invariant a[..][n..] == old(a[..][n..])
    {
      SiftDown(parse, a, i, n);
      i := i + 1;
    }
    assert a[..][..n] == a[..n] && a[..][n..] == a[n..];
    assert old(a[..][..n]) == old(a[..n]) && old(a[..][n..]) == old(a[n..]);
  }

  // ---------------------------------------------------------------- a slice a caller has kept

  /** Position by position, the same dates. */
  ghost predicate SameDates(parse: DateParser, a: seq<NotificationModel>, b: seq<NotificationModel>) {
    |a| == |b| && forall i :: 0 <= i < |a| ==> DateOf(parse, a[i]) == DateOf(parse, b[i])
  }

  ghost predicate NoNewer(parse: DateParser, n: NotificationModel, before: seq<NotificationModel>) {
    forall i :: 0 <= i < |before| ==> DateOf(parse, n) <= DateOf(parse, before[i])
  }

  /** The first cells of the sorted array, as many as there were before the push. */
  ghost predicate ShowsFront(parse: DateParser, before: seq<NotificationModel>, n: NotificationModel,
                             held: seq<NotificationModel>) {
    exists sorted :: IsSortOf(parse, sorted, before + [n]) && |sorted| == |before| + 1 && held == sorted[..|before|]
  }

  lemma InsertedMultiset<T>(front: seq<T>, n: T, back: seq<T>)
    ensures multiset(front + [n] + back) == multiset(front + back + [n])
  {
  }

  lemma InsertedDescends(parse: DateParser, front: seq<NotificationModel>, n: NotificationModel,
                         back: seq<NotificationModel>)
    requires Descending(parse, front + back)
    requires forall i :: 0 <= i < |front| ==> DateOf(parse, front[i]) >= DateOf(parse, n)
    requires forall i :: 0 <= i < |back| ==> DateOf(parse, n) >= DateOf(parse, back[i])
    ensures Descending(parse, front + [n] + back)
  {
    var whole, inserted := front + back, front + [n] + back;
    forall i, j | 0 <= i < j < |inserted|
      ensures DateOf(parse, inserted[i]) >= DateOf(parse, inserted[j])
    {
      if i != |front| && j != |front| {
        assert inserted[i] == whole[if i < |front| then i else i - 1];
        assert inserted[j] == whole[if j < |front| then j else j - 1];
      }
    }
  }

  /** Inserting before the first older entry is one of the sorts. */
  lemma InsertedIsSort(parse: DateParser, before: seq<NotificationModel>, n: NotificationModel, p: nat)
    requires Descending(parse, before) && p < |before| && DateOf(parse, before[p]) < DateOf(parse, n)
    requires forall i :: 0 <= i < p ==> DateOf(parse, before[i]) >= DateOf(parse, n)
    ensures IsSortOf(parse, before[..p] + [n] + before[p..], before + [n])
  {
    var front, back := before[..p], before[p..];
    assert before == front + back;
    assert forall i :: 0 <= i < |back| ==> back[i] == before[p + i];
    InsertedMultiset(front, n, back);
    InsertedDescends(parse, front, n, back);
  }

  lemma FirstOlder(parse: DateParser, before: seq<NotificationModel>, n: NotificationModel) returns (p: nat)
    requires !NoNewer(parse, n, before)
    ensures p < |before| && DateOf(parse, before[p]) < DateOf(parse, n)
    ensures forall i :: 0 <= i < p ==> DateOf(parse, before[i]) >= DateOf(parse, n)
  {
    p := 0;
    while DateOf(parse, before[p]) >= DateOf(parse, n)
      invariant p < |before|
      invariant forall i :: 0 <= i < p ==> DateOf(parse, before[i]) >= DateOf(parse, n)
      decreases |before| - p
    {
      assert exists i :: p < i < |before| && DateOf(parse, before[i]) < DateOf(parse, n);
      p := p + 1;
    }
  }

  /** Cell by cell, no date has become older. */
  ghost predicate DatesRise(parse: DateParser, from: seq<NotificationModel>, to: seq<NotificationModel>) {
    |from| == |to| && forall i :: 0 <= i < |from| ==> DateOf(parse, from[i]) <= DateOf(parse, to[i])
  }

  /**
   * Sorting in place leaves the dates of the first `k` cells alone iff the new notification is no
   * newer than any of those, and it never makes the date in a cell older.
   */
  lemma FrontKeepsDates(parse: DateParser, before: seq<NotificationModel>, n: NotificationModel,
                        held: seq<NotificationModel>, k: nat)
    requires Descending(parse, before) && ShowsFront(parse, before, n, held) && k <= |before|
    ensures |held| == |before| && DatesRise(parse, before, held)
    ensures SameDates(parse, held[..k], before[..k]) <==> NoNewer(parse, n, before[..k])
  {
    var sorted :| IsSortOf(parse, sorted, before + [n]) && |sorted| == |before| + 1 && held == sorted[..|before|];
    if NoNewer(parse, n, before) {
      SortsAgreeOnDates(parse, sorted, before + [n]);
      forall i | 0 <= i < |before|
        ensures DateOf(parse, held[i]) == DateOf(parse, before[i])
      {
        assert (before + [n])[i] == before[i];
      }
    } else {
      var p := FirstOlder(parse, before, n);
      var inserted := before[..p] + [n] + before[p..];
      InsertedIsSort(parse, before, n, p);
      SortsAgreeOnDates(parse, sorted, inserted);
      FrontAfterInsert(parse, before, n, held, p, k);
    }
  }

  lemma FrontAfterInsert(parse: DateParser, before: seq<NotificationModel>, n: NotificationModel,
                         held: seq<NotificationModel>, p: nat, k: nat)
    requires Descending(parse, before) && p < |before| == |held| && k <= |before|
    requires DateOf(parse, before[p]) < DateOf(parse, n)
    requires forall i :: 0 <= i < p ==> DateOf(parse, before[i]) >= DateOf(parse, n)
    requires var inserted := before[..p] + [n] + before[p..];
      forall i :: 0 <= i < |held| ==> DateOf(parse, held[i]) == DateOf(parse, inserted[i])
    ensures DatesRise(parse, before, held)
    ensures SameDates(parse, held[..k], before[..k]) <==> NoNewer(parse, n, before[..k])
  {
    if p < k {
      assert DateOf(parse, held[..k][p]) == DateOf(parse, n) && before[..k][p] == before[p];
    }
  }

  /** The condition for a kept slice of the first `k` cells to show the same dates after a push. */
  ghost predicate KeepsSlice(parse: DateParser, before: seq<NotificationModel>, n: NotificationModel, full: bool,
                             held: seq<NotificationModel>, k: nat)
    requires k <= |before| == |held|
  {
    SameDates(parse, held[..k], before[..k]) <==> full || NoNewer(parse, n, before[..k])
  }

  /** What one push amounts to, given the sorted cells and the cells a caller has kept. */
  lemma PushOutcome(parse: DateParser, size: int, before: seq<NotificationModel>, n: NotificationModel, full: bool,
                    sorted: seq<NotificationModel>, held: seq<NotificationModel>)
    requires Descending(parse, before) && IsSortOf(parse, sorted, before + [n]) && |sorted| == |before| + 1
    requires held == if full then before else sorted[..|before|]
    ensures PushedTo(parse, size, before, n, DropExcess(size, sorted))
    ensures Descending(parse, DropExcess(size, sorted))
    ensures !full ==> ShowsFront(parse, before, n, held)
    ensures DatesRise(parse, before, held)
    ensures forall k :: 0 <= k <= |before| ==> KeepsSlice(parse, before, n, full, held, k)
  {
    SortedPush(parse, size, before, n, sorted);
    forall k | 0 <= k <= |before|
      ensures DatesRise(parse, before, held) && KeepsSlice(parse, before, n, full, held, k)
    {
      if !full {
        FrontKeepsDates(parse, before, n, held, k);
      }
    }
    assert KeepsSlice(parse, before, n, full, held, 0);
  }

  // ---------------------------------------------------------------- a slice kept over many pushes

  /** A slice kept since `start` shows the same dates iff no push in its array was newer than any of it. */
  ghost predicate KeptSince(parse: DateParser, start: seq<NotificationModel>, inPlace: seq<NotificationModel>,
                            held: seq<NotificationModel>, k: nat)
    requires k <= |start| == |held|
  {
    SameDates(parse, held[..k], start[..k]) <==>
    forall j :: 0 <= j < |inPlace| ==> NoNewer(parse, inPlace[j], start[..k])
  }

  /** One more push in place: dates that have risen cannot come back. */
  lemma KeptThrough(parse: DateParser, start: seq<NotificationModel>, inPlace: seq<NotificationModel>,
                    held: seq<NotificationModel>, n: NotificationModel, after: seq<NotificationModel>, k: nat)
    requires k <= |start| && DatesRise(parse, start, held) && DatesRise(parse, held, after)
    requires KeptSince(parse, start, inPlace, held, k) && KeepsSlice(parse, held, n, false, after, k)
    ensures KeptSince(parse, start, inPlace + [n], after, k)
  {
    if SameDates(parse, held[..k], start[..k]) {
      assert NoNewer(parse, n, held[..k]) <==> NoNewer(parse, n, start[..k]);
      assert SameDates(parse, after[..k], start[..k]) <==> SameDates(parse, after[..k], held[..k]);
      assert (inPlace + [n])[|inPlace|] == n;
      assert forall j :: 0 <= j < |inPlace| ==> (inPlace + [n])[j] == inPlace[j];
    } else {
      var i :| 0 <= i < k && DateOf(parse, held[..k][i]) != DateOf(parse, start[..k][i]);
      assert DateOf(parse, after[..k][i]) >= DateOf(parse, held[i]) > DateOf(parse, start[i]);
      var j :| 0 <= j < |inPlace| && !NoNewer(parse, inPlace[j], start[..k]);
      assert (inPlace + [n])[j] == inPlace[j];
    }
  }

  /** What became of every slice kept since `start`, given the pushes made in its array. */
  ghost predicate Kept(parse: DateParser, start: seq<NotificationModel>, inPlace: seq<NotificationModel>,
                       held: seq<NotificationModel>) {
    DatesRise(parse, start, held) && forall k :: 0 <= k <= |start| ==> KeptSince(parse, start, inPlace, held, k)
  }

  /** What a push in place does to all cells, seen from the first ones, kept since `start`. */
  lemma SeenFrom(parse: DateParser, start: seq<NotificationModel>, inPlace: seq<NotificationModel>,
                 n: NotificationModel, cells: seq<NotificationModel>, after: seq<NotificationModel>,
                 count: nat)
    requires count == |start| <= |cells| && DatesRise(parse, cells, after)
    requires forall k :: 0 <= k <= |cells| ==> KeepsSlice(parse, cells, n, false, after, k)
    requires Kept(parse, start, inPlace, cells[..count])
    ensures Kept(parse, start, inPlace + [n], after[..count])
  {
    forall k | 0 <= k <= count
      ensures KeptSince(parse, start, inPlace + [n], after[..count], k)
    {
      assert KeepsSlice(parse, cells, n, false, after, k);
      assert cells[..count][..k] == cells[..k] && after[..count][..k] == after[..k];
      KeptThrough(parse, start, inPlace, cells[..count], n, after[..count], k);
    }
  }

  /** How many entries there are after some pushes. */
  function Grown(length: nat, size: int, pushes: nat): nat {
    if length >= size then length else if length + pushes <= size then length + pushes else size
  }

  /** How many of some pushes are made in the present array, before one finds it full. */
  function InPlace(length: nat, capacity: nat, size: int, pushes: nat): nat
    requires length <= capacity
  {
    if length == capacity then 0
    else if capacity <= size && capacity - length < pushes then capacity - length
    else pushes
  }

  class InMemoryHistory {

    const parse: DateParser
    const size: int
    var notifications: array<NotificationModel>
    var length: nat

    ghost predicate InBounds()
      reads this
    {
      length <= notifications.Length
    }

    predicate Full()
      reads this
    {
      length == notifications.Length
    }

    ghost function Contents(): seq<NotificationModel>
      requires InBounds()
      reads this, notifications
    {
      notifications[..length]
    }

    ghost predicate Valid()
      reads this, notifications
    {
      InBounds() && Descending(parse, Contents())
    }

    constructor (parse: DateParser, size: int)
      ensures Valid() && fresh(notifications)
      ensures Contents() == [] && this.parse == parse && this.size == size
    {
      this.parse := parse;
      this.size := size;
      notifications := new NotificationModel[0];
      length := 0;
    }

    /** Appends in place while there is room, as a slice does, and moves to a bigger array when not. */
    method Append(n: NotificationModel)
      requires InBounds()
      modifies this, notifications
      ensures InBounds() && Contents() == old(Contents()) + [n]
      ensures if !old(Full()) then notifications == old(notifications)
              else fresh(notifications) && old(notifications)[..] == old(notifications[..])
    {
      if Full() {
        var bigger := new NotificationModel[2 * length + 1];
        forall i | 0 <= i < length {
          bigger[i] := notifications[i];
        }
        notifications := bigger;
      }
      notifications[length] := n;
      length := length + 1;
    }

    method AppendSorted(n: NotificationModel)
      requires InBounds()
      modifies this, notifications
      ensures InBounds() && length == old(length) + 1
      ensures IsSortOf(parse, Contents(), old(Contents()) + [n])
      ensures if !old(Full()) then notifications == old(notifications)
              else fresh(notifications) && old(notifications)[..] == old(notifications[..])
    {
      Append(n);
      SortDescending(parse, notifications, length);
    }

    /** Gives up the last entry when there is one too many; its cell stays behind. */
    method Truncate()
      requires InBounds()
      modifies this`length
      ensures InBounds() && Contents() == DropExcess(size, old(Contents()))
      ensures length == if old(length) > size && old(length) > 0 then old(length) - 1 else old(length)
      ensures old(length) > size && old(length) > 0 ==> length < notifications.Length
    {
      if length > size && length > 0 {
        length := length - 1;
      }
    }

    /**
     * Pushes, and says what the cells handed out before show now: nothing new if the array was full,
     * else the front of the sorted array. A slice of `k` of them, handed out at any earlier time,
     * keeps its dates iff the array was full or nothing among them is older than the notification.
     */
    method Push(n: NotificationModel)
      requires Valid()
      modifies this, notifications
      ensures Valid() && (notifications == old(notifications) || fresh(notifications))
      ensures PushedTo(parse, size, old(Contents()), n, Contents())
      ensures length == Grown(old(length), size, 1)
      ensures if old(Full())
              then fresh(notifications) && old(notifications)[..] == old(notifications[..])
              else notifications == old(notifications)
                   && ShowsFront(parse, old(Contents()), n, notifications[..old(length)])
      ensures DatesRise(parse, old(Contents()), old(notifications)[..old(length)])
      ensures forall k :: 0 <= k <= old(length) ==>
        KeepsSlice(parse, old(Contents()), n, old(Full()), old(notifications)[..old(length)], k)
      ensures old(length) >= size ==> length < notifications.Length
    {
      ghost var before, held, k, full := Contents(), notifications, length, Full();
      AppendSorted(n);
      PushOutcome(parse, size, before, n, full, Contents(), held[..k]);
      Truncate();
    }

    /** One push, seen by a caller who has kept a slice since the cells were `start`. */
    method PushKept(n: NotificationModel, ghost kept: array<NotificationModel>, ghost start: seq<NotificationModel>,
                    ghost inPlace: seq<NotificationModel>)
      requires Valid() && |start| <= kept.Length && Kept(parse, start, inPlace, kept[..|start|])
      requires notifications == kept ==> length >= |start|
      modifies this, notifications
      ensures Valid() && (notifications == old(notifications) || fresh(notifications))
      ensures length == Grown(old(length), size, 1)
      ensures notifications == kept <==> old(notifications == kept && !Full())
      ensures Kept(parse, start, if notifications == kept then inPlace + [n] else inPlace, kept[..|start|])
    {
      ghost var cells, count := Contents(), |start|;
      ghost var same, cut := notifications == kept && !Full(), kept[..|start|];
      assert notifications == kept ==> cut == cells[..count];
      Push(n);
      if same {
        SeenFrom(parse, start, inPlace, n, cells, kept[..|cells|], count);
        assert kept[..|cells|][..count] == kept[..count];
      } else {
        assert kept[..count] == cut;
      }
    }

    /**
     * A sequence of pushes, and what it does to any slice handed out before it: the first `inPlace`
     * pushes, those before the storage moved, decide; an array left behind never changes again.
     */
    method PushAll(ns: seq<NotificationModel>) returns (ghost inPlace: nat)
      requires Valid()
      modifies this, notifications
      ensures Valid() && inPlace <= |ns|
      ensures inPlace == InPlace(old(length), old(notifications.Length), size, |ns|)
      ensures inPlace == |ns| <==> notifications == old(notifications)
      ensures forall k :: 0 <= k <= old(length) ==>
        KeptSince(parse, old(Contents()), ns[..inPlace], old(notifications)[..old(length)], k)
    {
      inPlace := 0;
      ghost var start, kept, decisive := Contents(), notifications, [];
      ghost var first, capacity := length, notifications.Length;
      for i := 0 to |ns|
        invariant Valid() && inPlace <= i && (notifications == kept || fresh(notifications))
        invariant inPlace == i <==> notifications == kept
        invariant notifications == kept ==> length == Grown(first, size, i)
        invariant inPlace == InPlace(first, capacity, size, i)
        invariant decisive == ns[..inPlace] && Kept(parse, start, decisive, kept[..|start|])
      {
        PushKept(ns[i], kept, start, decisive);
        if notifications == kept {
          decisive, inPlace := decisive + [ns[i]], inPlace + 1;
        }
      }
    }

    /** Hands out the live storage, not a copy. */
    method Notifications() returns (slice: array<NotificationModel>, upTo: nat)
      requires Valid()
      ensures slice == notifications && upTo <= slice.Length
      ensures slice[..upTo] == Contents()
    {
      slice, upTo := notifications, length;
    }
  }

  lemma SortOfTwo(parse: DateParser, older: NotificationModel, newer: NotificationModel, sorted: seq<NotificationModel>)
    requires IsSortOf(parse, sorted, [older] + [newer]) && DateOf(parse, older) <= DateOf(parse, newer)
    ensures |sorted| == 2
    ensures DateOf(parse, older) < DateOf(parse, newer) || older == newer ==> sorted == [newer, older]
  {
    assert |multiset(sorted)| == |sorted|;
    assert sorted == [sorted[0], sorted[1]];
    assert multiset(sorted) == multiset{sorted[0], sorted[1]} == multiset{older, newer};
  }

  lemma PushesOfOne(parse: DateParser, older: NotificationModel, newer: NotificationModel)
    requires DateOf(parse, older) < DateOf(parse, newer)
    ensures forall after :: PushedTo(parse, 1, [], older, after) ==> after == [older]
    ensures forall after :: PushedTo(parse, 1, [older], older, after) ==> after == [older]
    ensures forall held :: ShowsFront(parse, [older], newer, held) ==> held == [newer]
  {
    forall after | PushedTo(parse, 1, [], older, after)
      ensures after == [older]
    {
      var sorted :| IsSortOf(parse, sorted, [] + [older]) && after == DropExcess(1, sorted);
      assert |multiset(sorted)| == |sorted| && sorted[0] in multiset{older};
    }
    forall after | PushedTo(parse, 1, [older], older, after)
      ensures after == [older]
    {
      var sorted :| IsSortOf(parse, sorted, [older] + [older]) && after == DropExcess(1, sorted);
      SortOfTwo(parse, older, older, sorted);
    }
    forall held | ShowsFront(parse, [older], newer, held)
      ensures held == [newer]
    {
      var sorted :| IsSortOf(parse, sorted, [older] + [newer]) && |sorted| == 2 && held == sorted[..1];
      SortOfTwo(parse, older, newer, sorted);
    }
  }

  /** A full history of one: what a caller was handed changes under its hands at the next push. */
  method KeptSliceChanges(parse: DateParser, older: NotificationModel, newer: NotificationModel)
    returns (shown: seq<NotificationModel>, kept: array<NotificationModel>, upTo: nat)
    requires DateOf(parse, older) < DateOf(parse, newer)
    ensures shown == [older] && upTo == 1 <= kept.Length && kept[..upTo] == [newer]
  {
    PushesOfOne(parse, older, newer);
    var history := new InMemoryHistory(parse, 1);
    history.Push(older);
    history.Push(older);
    kept, upTo := history.Notifications();
    shown := kept[..upTo];
    history.Push(newer);
  }
}
