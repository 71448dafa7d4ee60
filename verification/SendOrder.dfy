// When forwards follow the order of the sends, and when they need not.
module SendOrder {

  import opened Basics
  import opened Notifications
  import opened Protocol
  import opened Invariants
  import opened Runs
  import opened Progress

  /** What has yet to reach the inbound channel, in the order it was sent. */
  function Pending(s: State): seq<NotificationModel> {
    Map(Waiting, s.senders)
  }

  /** What was forwarded, is held by the loop, or is bound to come next because it is blocked. */
  function Committed(s: State): seq<NotificationModel> {
    Forwarded(s) + Map(Stuck, s.blocked)
  }

  // ---------------------------------------------------------------- continuations

  /** A sleeping sender can be woken as soon as its delay is over, and not only later. */
  lemma RunToStamp(c: Config, origin: State, s: State, i: nat) returns (t: State)
    requires Reachable(c, s) && LeadsTo(c, origin, s) && i < |s.senders|
    ensures Reachable(c, t) && LeadsTo(c, origin, t) && t.loop == s.loop && t.blocked == s.blocked
    ensures Pending(t) == Pending(s) && t.dispatched == s.dispatched
    ensures t.sends == s.sends && t.registered == s.registered
    ensures t.subs == s.subs && i < |t.senders| && t.senders[i].stampedAt.Some?
    ensures s.senders[i].stampedAt.None? ==>
      t.senders[i].stampedAt == Some(t.now) && t.now == Max(s.now, s.senders[i].sentAt + c.delay)
  {
    if s.senders[i].stampedAt.Some? {
      t := s;
    } else {
      var due := s.senders[i].sentAt + c.delay;
      var wait := Tick(if due > s.now then due - s.now else 0);
      GoOn(c, origin, s, wait);
      var s1 := Apply(c, s, wait);
      GoOn(c, origin, s1, Wake(i));
      t := ApplyWake(c, s1, i);
      assert Pending(t) == Pending(s);
    }
  }

  /** Any sender can be the next to block on the channel. */
  lemma RunToBlock(c: Config, origin: State, s: State, i: nat) returns (t: State)
    requires Reachable(c, s) && LeadsTo(c, origin, s) && i < |s.senders|
    ensures Reachable(c, t) && LeadsTo(c, origin, t) && t.loop == s.loop && t.subs == s.subs
    ensures t.sends == s.sends && t.registered == s.registered
    ensures Pending(t) == Without(Pending(s), i) && Committed(t) == Committed(s) + [Pending(s)[i]]
  {
    var u := RunToStamp(c, origin, s, i);
    GoOn(c, origin, u, Block(i));
    t := ApplyBlock(u, i);
    var g := u.senders[i];
    MapWithout(Waiting, u.senders, i);
    MapAppend(Stuck, u.blocked, Blocked(g.n, g.sentAt, g.stampedAt.value));
    assert Pending(u)[i] == Pending(s)[i];
    var blocked, one := Map(Stuck, s.blocked), [Undated(g.n)];
    assert Forwarded(s) + (blocked + one) == Forwarded(s) + blocked + one;
  }

  lemma ReceiveCommitted(s: State)
    requires s.loop.Idle? && s.blocked != []
    ensures Forwarded(ApplyReceive(s)) == Forwarded(s) + [Stuck(s.blocked[0])]
    ensures Committed(ApplyReceive(s)) == Committed(s)
  {
    var first, rest := Stuck(s.blocked[0]), Map(Stuck, s.blocked[1..]);
    assert Map(Stuck, s.blocked) == [first] + rest;
    assert Forwarded(s) + [first] + rest == Forwarded(s) + ([first] + rest);
  }

  /** The loop can be run until it has taken everything that is blocked. */
  lemma {:induction false} RunToTaken(c: Config, origin: State, s: State) returns (t: State)
    requires Reachable(c, s) && LeadsTo(c, origin, s) && !s.loop.Stopped?
    ensures Reachable(c, t) && LeadsTo(c, origin, t) && !t.loop.Stopped? && t.blocked == []
    ensures t.senders == s.senders && t.sends == s.sends && t.registered == s.registered
    ensures Forwarded(t) == Committed(s) && SubsKept(s, t)
    decreases |s.blocked|
  {
    if s.blocked == [] {
      t := s;
    } else {
      var u := RunToIdle(c, origin, s);
      ReceiveCommitted(u);
      GoOn(c, origin, u, Receive);
      t := RunToTaken(c, origin, ApplyReceive(u));
    }
  }

  /** Wherever the loop is, any sender can be the first to be forwarded after those already blocked. */
  lemma RunToNext(c: Config, origin: State, s: State, i: nat) returns (t: State)
    requires Reachable(c, s) && LeadsTo(c, origin, s) && !s.loop.Stopped? && i < |s.senders|
    ensures Reachable(c, t) && LeadsTo(c, origin, t) && !t.loop.Stopped? && t.blocked == []
    ensures t.sends == s.sends && t.registered == s.registered
    ensures Pending(t) == Without(Pending(s), i) && Forwarded(t) == Committed(s) + [Pending(s)[i]]
    ensures SubsKept(s, t)
  {
    var u := RunToBlock(c, origin, s, i);
    t := RunToTaken(c, origin, u);
  }

  // ---------------------------------------------------------------- when the order is kept

  /** Forwards have followed the order of the sends. */
  ghost predicate InOrder(s: State) {
    Forwarded(s) <= Map(Undated, s.sends)
  }

  ghost predicate AllEqual(ns: seq<NotificationModel>) {
    forall i :: 0 <= i < |ns| ==> ns[i] == ns[0]
  }

  /** What is committed follows the order of the sends, and the rest is all the same, the date aside. */
  ghost predicate Safe(s: State) {
    Map(Undated, s.sends) == Committed(s) + Pending(s) && AllEqual(Pending(s))
  }

  lemma SafeIsInOrder(s: State)
    requires Safe(s)
    ensures InOrder(s)
  {
    assert Committed(s) + Pending(s) == Forwarded(s) + (Map(Stuck, s.blocked) + Pending(s));
  }

  lemma EqualWithout(ns: seq<NotificationModel>, i: nat)
    requires AllEqual(ns) && i < |ns|
    ensures [ns[i]] + Without(ns, i) == ns && AllEqual(Without(ns, i))
  {
    forall k | 0 <= k < |Without(ns, i)|
      ensures Without(ns, i)[k] == ns[0]
    {
      assert Without(ns, i)[k] == ns[if k < i then k else k + 1];
    }
  }

  lemma BlockKeepsSafe(s: State, i: nat)
    requires Safe(s) && i < |s.senders| && s.senders[i].stampedAt.Some?
    ensures Safe(ApplyBlock(s, i))
  {
    var next, g := ApplyBlock(s, i), s.senders[i];
    MapWithout(Waiting, s.senders, i);
    MapAppend(Stuck, s.blocked, Blocked(g.n, g.sentAt, g.stampedAt.value));
    EqualWithout(Pending(s), i);
    var front, blocked, one, rest := Forwarded(s), Map(Stuck, s.blocked), [Pending(s)[i]], Pending(next);
    assert Committed(next) == front + (blocked + one);
    assert front + (blocked + one) + rest == front + blocked + (one + rest);
  }

  /** No step but a send can make a safe state unsafe. */
  lemma StepKeepsSafe(c: Config, s: State, l: Label)
    requires Safe(s) && Enabled(c, s, l) && !l.Send?
    ensures Safe(Apply(c, s, l))
  {
    if l.Block? {
      BlockKeepsSafe(s, l.i);
    } else if l.Receive? {
      ReceiveCommitted(s);
    } else if l.Wake? {
      assert Pending(ApplyWake(c, s, l.i)) == Pending(s);
    } else if l.Lock? {
      LoopStepFrame(c, s, l);
    } else {
      OthersKeepOrder(c, s, l);
    }
  }

  lemma OthersKeepOrder(c: Config, s: State, l: Label)
    requires Enabled(c, s, l) && !Moves(l)
    ensures var next := Apply(c, s, l);
      next.sends == s.sends && Pending(next) == Pending(s) && Committed(next) == Committed(s)
  {
    OthersMoveNothing(c, s, l);
    assert !Apply(c, s, l).loop.Received? || Apply(c, s, l).loop == s.loop;
  }

  lemma {:induction false} QuietRunKeepsSafe(c: Config, s: State, labels: seq<Label>)
    requires Safe(s) && Valid(c, s, labels) && SendsNothing(labels)
    ensures Safe(Exec(c, s, labels))
    decreases |labels|
  {
    if labels != [] {
      assert !labels[0].Send?;
      StepKeepsSafe(c, s, labels[0]);
      QuietRunKeepsSafe(c, Apply(c, s, labels[0]), labels[1..]);
    }
  }

  lemma RestIsPending(all: seq<NotificationModel>, front: seq<NotificationModel>, pending: seq<NotificationModel>)
    requires front <= all && multiset(all) == multiset(front) + multiset(pending) && AllEqual(pending)
    ensures all == front + pending
  {
    var rest := all[|front|..];
    assert all == front + rest;
    assert multiset(front + rest) == multiset(front) + multiset(rest);
    assert multiset(rest) == multiset(all) - multiset(front) == multiset(pending);
    assert |multiset(rest)| == |rest| && |multiset(pending)| == |pending|;
    forall k | 0 <= k < |rest|
      ensures rest[k] == pending[k]
    {
      assert rest[k] in multiset(pending);
    }
  }

  lemma ConservedCommitted(s: State)
    requires Conserved(s)
    ensures multiset(Map(Undated, s.sends)) == multiset(Committed(s)) + multiset(Pending(s))
  {
    assert multiset(HeldNotes(s.loop)) == Held(s.loop);
  }

  /** If every continuation without sends is in order, the state is safe. */
  lemma OrderNeedsSafe(c: Config, s: State)
    requires Reachable(c, s) && !s.loop.Stopped?
    requires forall t :: LeadsTo(c, s, t) ==> InOrder(t)
    ensures Safe(s)
  {
    StayHere(c, s);
    var taken := RunToTaken(c, s, s);
    var all, front, pending := Map(Undated, s.sends), Committed(s), Pending(s);
    assert front <= all;
    forall i | 0 <= i < |pending|
      ensures |front| < |all| && pending[i] == all[|front|]
    {
      var t := RunToNext(c, s, s, i);
      assert front + [pending[i]] <= all;
      assert (front + [pending[i]])[|front|] == all[|front|];
    }
    ExactlyOnce(c, s);
    ConservedCommitted(s);
    RestIsPending(all, front, pending);
  }

  /**
   * From a reachable state whose loop has not stopped, every continuation without another send
   * forwards in send order exactly when what is forwarded, held or blocked stands in send order and
   * all the rest is the same but for the date.
   */
  lemma OrderIsSafeIff(c: Config, s: State)
    requires Reachable(c, s) && !s.loop.Stopped?
    ensures (forall t :: LeadsTo(c, s, t) ==> InOrder(t)) <==> Safe(s)
  {
    if Safe(s) {
      forall t | LeadsTo(c, s, t)
        ensures InOrder(t)
      {
        var labels :| SendsNothing(labels) && Valid(c, s, labels) && t == Exec(c, s, labels);
        QuietRunKeepsSafe(c, s, labels);
        SafeIsInOrder(t);
      }
    } else if forall t :: LeadsTo(c, s, t) ==> InOrder(t) {
      OrderNeedsSafe(c, s);
    }
  }

  lemma SendExtends(c: Config, s: State, n: NotificationModel)
    ensures var next := Apply(c, s, Send(n));
      && Map(Undated, next.sends) == Map(Undated, s.sends) + [Undated(n)]
      && Pending(next) == Pending(s) + [Undated(n)] && Committed(next) == Committed(s)
  {
    MapAppend(Undated, s.sends, n);
    MapAppend(Waiting, s.senders, Sender(n, s.now, None));
  }

  /** A send keeps a safe state safe exactly when it finds nothing pending but what it sends itself. */
  lemma SendIsSafeIff(c: Config, s: State, n: NotificationModel)
    requires Reachable(c, s) && !s.loop.Stopped? && Safe(s)
    ensures (forall t :: LeadsTo(c, Apply(c, s, Send(n)), t) ==> InOrder(t)) <==>
            forall i :: 0 <= i < |s.senders| ==> Waiting(s.senders[i]) == Undated(n)
  {
    var next := Apply(c, s, Send(n));
    ReachableStep(c, s, Send(n));
    OrderIsSafeIff(c, next);
    SendKeepsSafeIff(c, s, n);
  }

  lemma SendKeepsSafeIff(c: Config, s: State, n: NotificationModel)
    requires Safe(s)
    ensures Safe(Apply(c, s, Send(n))) <==> forall i :: 0 <= i < |s.senders| ==> Waiting(s.senders[i]) == Undated(n)
  {
    var next := Apply(c, s, Send(n));
    SendExtends(c, s, n);
    assert Committed(s) + Pending(s) + [Undated(n)] == Committed(s) + (Pending(s) + [Undated(n)]);
    if Safe(next) {
      forall i | 0 <= i < |s.senders|
        ensures Waiting(s.senders[i]) == Undated(n)
      {
        assert Pending(next)[i] == Pending(next)[0] == Pending(next)[|s.senders|];
      }
    }
  }

  /** In this run every send finds nothing pending but copies of what it sends. */
  ghost predicate Calm(c: Config, s: State, labels: seq<Label>)
    requires Valid(c, s, labels)
    decreases |labels|
  {
    labels == []
    || ((labels[0].Send? ==> forall i :: 0 <= i < |s.senders| ==> Waiting(s.senders[i]) == Undated(labels[0].n))
        && Calm(c, Apply(c, s, labels[0]), labels[1..]))
  }

  lemma {:induction false} CalmRunKeepsSafe(c: Config, s: State, labels: seq<Label>)
    requires Safe(s) && Valid(c, s, labels) && Calm(c, s, labels)
    ensures Safe(Exec(c, s, labels))
    decreases |labels|
  {
    if labels != [] {
      if labels[0].Send? {
        SendKeepsSafeIff(c, s, labels[0].n);
      } else {
        StepKeepsSafe(c, s, labels[0]);
      }
      CalmRunKeepsSafe(c, Apply(c, s, labels[0]), labels[1..]);
    }
  }

  /**
   * A run of the dispatcher whose every send finds nothing different pending, for instance one that
   * sends only when nothing is pending, forwards in send order: what was sent is, in this order,
   * what was forwarded or is held, what is blocked, and what is pending.
   */
  lemma CalmRunIsInOrder(c: Config, labels: seq<Label>)
    requires Valid(c, INITIAL, labels) && Calm(c, INITIAL, labels)
    ensures var s := Exec(c, INITIAL, labels);
      InOrder(s) && Map(Undated, s.sends) == Forwarded(s) + Map(Stuck, s.blocked) + Pending(s)
  {
    CalmRunKeepsSafe(c, INITIAL, labels);
    SafeIsInOrder(Exec(c, INITIAL, labels));
  }

  // ---------------------------------------------------------------- when it is not

  lemma EarlierStays<T>(xs: seq<T>, i: nat, j: nat)
    requires i < j < |xs|
    ensures Without(xs, j)[i] == xs[i]
  {
  }

  /** Of any two pending notifications the later-sent one can be forwarded first, whoever is registered. */
  lemma LaterOneFirst(c: Config, s: State, i: nat, j: nat) returns (t: State)
    requires Reachable(c, s) && !s.loop.Stopped? && i < j < |s.senders|
    ensures Reachable(c, t) && LeadsTo(c, s, t)
    ensures t.sends == s.sends && t.registered == s.registered
    ensures Forwarded(t) == Committed(s) + [Pending(s)[j], Pending(s)[i]]
  {
    StayHere(c, s);
    EarlierStays(Pending(s), i, j);
    var u := RunToNext(c, s, s, j);
    t := RunToNext(c, s, u, i);
    assert Committed(u) == Forwarded(u) + [];
    assert Committed(s) + [Pending(s)[j]] + [Pending(s)[i]] == Committed(s) + [Pending(s)[j], Pending(s)[i]];
  }

  /** Two sends in a row can be forwarded in the opposite order. */
  lemma MayBeSwapped(c: Config, a: NotificationModel, b: NotificationModel) returns (t: State)
    ensures Reachable(c, t) && t.sends == [a, b] && Forwarded(t) == [Undated(b), Undated(a)]
  {
    assert Valid(c, INITIAL, []) && Exec(c, INITIAL, []) == INITIAL;
    ReachableStep(c, INITIAL, Send(a));
    var s1 := Apply(c, INITIAL, Send(a));
    ReachableStep(c, s1, Send(b));
    var s2 := Apply(c, s1, Send(b));
    t := LaterOneFirst(c, s2, 0, 1);
  }
}
