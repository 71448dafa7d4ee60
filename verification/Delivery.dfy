// Who receives what, in every reachable state, as a closed form over the forwards that began.
module Delivery {

  import opened Notifications
  import opened Subscribers
  import opened Dispatching
  import opened Protocol
  import opened Invariants

  /** The forward was evaluated, the subscriber is eligible for it, and the message encodes. */
  ghost predicate Deliverable(c: Config, index: nat, d: Dispatch, profile: Profile) {
    && Evaluate(c.policyAt(index), d.n).Evaluated?
    && Eligible(profile, d.n, Evaluate(c.policyAt(index), d.n).hasAccess)
    && c.encode(ResponseFor(profile, d.n)).Some?
  }

  ghost function EntryFor(c: Config, index: nat, d: Dispatch, profile: Profile): Entry
    requires Deliverable(c, index, d, profile)
  {
    Entry(index, ResponseFor(profile, d.n), c.encode(ResponseFor(profile, d.n)).value)
  }

  /** One entry for each deliverable forward from `lo` on and before `hi` that was not refused. */
  ghost function Expected(c: Config, ds: seq<Dispatch>, profile: Profile, lo: nat, hi: nat,
                          refused: set<nat>): seq<Entry>
    requires hi <= |ds|
    decreases hi
  {
    if hi <= lo then []
    else Expected(c, ds, profile, lo, hi - 1, refused) + Due(c, hi - 1, ds[hi - 1], profile, refused)
  }

  ghost function Due(c: Config, index: nat, d: Dispatch, profile: Profile, refused: set<nat>): seq<Entry> {
    if Deliverable(c, index, d, profile) && index !in refused then [EntryFor(c, index, d, profile)] else []
  }

  /** The forwards that have been past this subscriber, from the one counted `joined`. */
  ghost function Upto(s: State, id: string): nat
    requires id in s.subs
  {
    if id !in s.registered then s.subs[id].left
    else if s.loop.Forwarding? && id in s.loop.pass.todo then s.loop.pass.index
    else |s.dispatched|
  }

  ghost predicate DeliveredTo(c: Config, ds: seq<Dispatch>, sub: Subscription, upto: nat) {
    && upto <= |ds|
    && sub.accepted == Expected(c, ds, sub.profile, sub.joined, upto, sub.refused)
    && (forall i :: i in sub.refused ==> sub.joined <= i < upto && Deliverable(c, i, ds[i], sub.profile))
  }

  ghost predicate DeliveriesOk(c: Config, s: State) {
    forall id :: id in s.subs ==> DeliveredTo(c, s.dispatched, s.subs[id], Upto(s, id))
  }

  // ---------------------------------------------------------------- the closed form

  lemma {:induction false} ExpectedGrows(c: Config, ds: seq<Dispatch>, d: Dispatch, profile: Profile,
                                         lo: nat, hi: nat, refused: set<nat>)
    requires hi <= |ds|
    ensures Expected(c, ds + [d], profile, lo, hi, refused) == Expected(c, ds, profile, lo, hi, refused)
    decreases hi
  {
    if hi > lo {
      ExpectedGrows(c, ds, d, profile, lo, hi - 1, refused);
    }
  }

  lemma {:induction false} ExpectedIgnoresLater(c: Config, ds: seq<Dispatch>, profile: Profile, lo: nat, hi: nat,
                                                refused: set<nat>, later: nat)
    requires hi <= |ds| && hi <= later
    ensures Expected(c, ds, profile, lo, hi, refused + {later}) == Expected(c, ds, profile, lo, hi, refused)
    decreases hi
  {
    if hi > lo {
      ExpectedIgnoresLater(c, ds, profile, lo, hi - 1, refused, later);
    }
  }

  ghost predicate Increasing(entries: seq<Entry>) {
    forall i, j :: 0 <= i < j < |entries| ==> entries[i].index < entries[j].index
  }

  /** The entry is what the forward it names owes this subscriber. */
  ghost predicate IsOwed(c: Config, ds: seq<Dispatch>, profile: Profile, e: Entry) {
    && e.index < |ds|
    && Deliverable(c, e.index, ds[e.index], profile)
    && e == EntryFor(c, e.index, ds[e.index], profile)
  }

  lemma DueIsOwed(c: Config, ds: seq<Dispatch>, profile: Profile, index: nat, refused: set<nat>)
    requires index < |ds|
    ensures forall e :: e in Due(c, index, ds[index], profile, refused) ==>
              e.index == index && index !in refused && IsOwed(c, ds, profile, e)
    ensures |Due(c, index, ds[index], profile, refused)| <= 1
  {
  }

  lemma {:induction false} ExpectedOwed(c: Config, ds: seq<Dispatch>, profile: Profile, lo: nat, hi: nat,
                                        refused: set<nat>, e: Entry)
    requires hi <= |ds| && e in Expected(c, ds, profile, lo, hi, refused)
    ensures lo <= e.index < hi && e.index !in refused && IsOwed(c, ds, profile, e)
    decreases hi
  {
    var front, due := Expected(c, ds, profile, lo, hi - 1, refused), Due(c, hi - 1, ds[hi - 1], profile, refused);
    if e in front {
      ExpectedOwed(c, ds, profile, lo, hi - 1, refused, e);
    } else {
      assert e in due;
      DueIsOwed(c, ds, profile, hi - 1, refused);
    }
  }

  lemma {:induction false} ExpectedAscends(c: Config, ds: seq<Dispatch>, profile: Profile, lo: nat, hi: nat,
                                           refused: set<nat>)
    requires hi <= |ds|
    ensures Increasing(Expected(c, ds, profile, lo, hi, refused))
    decreases hi
  {
    if hi > lo {
      var front, due := Expected(c, ds, profile, lo, hi - 1, refused), Due(c, hi - 1, ds[hi - 1], profile, refused);
      ExpectedAscends(c, ds, profile, lo, hi - 1, refused);
      forall e | e in front
        ensures e.index < hi - 1
      {
        ExpectedOwed(c, ds, profile, lo, hi - 1, refused, e);
      }
      DueIsOwed(c, ds, profile, hi - 1, refused);
      IncreasingConcat(front, due, hi - 1);
    }
  }

  /** Entries stand in forward order, and each is what its forward owes this subscriber. */
  lemma ExpectedEntries(c: Config, ds: seq<Dispatch>, profile: Profile, lo: nat, hi: nat, refused: set<nat>)
    requires hi <= |ds|
    ensures Increasing(Expected(c, ds, profile, lo, hi, refused))
    ensures forall e :: e in Expected(c, ds, profile, lo, hi, refused) ==>
              lo <= e.index < hi && e.index !in refused && IsOwed(c, ds, profile, e)
  {
    ExpectedAscends(c, ds, profile, lo, hi, refused);
    forall e | e in Expected(c, ds, profile, lo, hi, refused)
      ensures lo <= e.index < hi && e.index !in refused && IsOwed(c, ds, profile, e)
    {
      ExpectedOwed(c, ds, profile, lo, hi, refused, e);
    }
  }

  lemma IncreasingConcat(front: seq<Entry>, last: seq<Entry>, index: nat)
    requires Increasing(front) && |last| <= 1
    requires forall e :: e in front ==> e.index < index
    requires forall e :: e in last ==> e.index == index
    ensures Increasing(front + last)
  {
  }

  ghost predicate Got(entries: seq<Entry>, index: nat) {
    exists k :: 0 <= k < |entries| && entries[k].index == index
  }

  /** Nothing owed is missing. */
  lemma {:induction false} ExpectedComplete(c: Config, ds: seq<Dispatch>, profile: Profile, lo: nat, hi: nat,
                                            refused: set<nat>, index: nat)
    requires lo <= index < hi <= |ds|
    requires Deliverable(c, index, ds[index], profile) && index !in refused
    ensures Got(Expected(c, ds, profile, lo, hi, refused), index)
    decreases hi
  {
    var es := Expected(c, ds, profile, lo, hi, refused);
    if index == hi - 1 {
      assert es[|es| - 1].index == index;
    } else {
      ExpectedComplete(c, ds, profile, lo, hi - 1, refused, index);
      var front := Expected(c, ds, profile, lo, hi - 1, refused);
      var k :| 0 <= k < |front| && front[k].index == index;
      assert es[k] == front[k];
    }
  }

  /** The forward has been past this subscriber. */
  ghost predicate Passed(s: State, id: string, index: nat)
    requires id in s.subs
  {
    s.subs[id].joined <= index < Upto(s, id)
  }

  /** A message is held iff its forward has been past, owed one, and did not find the buffer full. */
  lemma HeldExactly(c: Config, s: State, id: string, index: nat)
    requires DeliveriesOk(c, s) && id in s.subs
    ensures Passed(s, id, index) ==> index < |s.dispatched|
    ensures Got(s.subs[id].accepted, index) <==>
            Passed(s, id, index) && Deliverable(c, index, s.dispatched[index], s.subs[id].profile)
            && index !in s.subs[id].refused
  {
    var sub, upto := s.subs[id], Upto(s, id);
    assert DeliveredTo(c, s.dispatched, sub, upto);
    ExpectedEntries(c, s.dispatched, sub.profile, sub.joined, upto, sub.refused);
    if Got(sub.accepted, index) {
      var k :| 0 <= k < |sub.accepted| && sub.accepted[k].index == index;
      assert sub.accepted[k] in sub.accepted;
      assert IsOwed(c, s.dispatched, sub.profile, sub.accepted[k]);
    } else if Passed(s, id, index) && Deliverable(c, index, s.dispatched[index], sub.profile) && index !in sub.refused {
      ExpectedComplete(c, s.dispatched, sub.profile, sub.joined, upto, sub.refused, index);
    }
  }

  // ---------------------------------------------------------------- steps

  lemma UnaffectedDelivery(c: Config, ds: seq<Dispatch>, sub: Subscription, upto: nat, d: Dispatch)
    requires DeliveredTo(c, ds, sub, upto)
    ensures DeliveredTo(c, ds + [d], sub, upto)
  {
    ExpectedGrows(c, ds, d, sub.profile, sub.joined, upto, sub.refused);
  }

  /** A forward that was aborted owes nobody anything. */
  lemma AbortedOwesNothing(c: Config, ds: seq<Dispatch>, sub: Subscription, d: Dispatch)
    requires DeliveredTo(c, ds, sub, |ds|)
    requires Evaluate(c.policyAt(|ds|), d.n).Aborted?
    ensures DeliveredTo(c, ds + [d], sub, |ds| + 1)
  {
    ExpectedGrows(c, ds, d, sub.profile, sub.joined, |ds|, sub.refused);
  }

  /** Visiting a subscriber settles what the current forward owes it. */
  lemma OfferSettles(c: Config, ds: seq<Dispatch>, sub: Subscription, index: nat, hasAccess: bool, after: Subscription)
    requires index < |ds| && DeliveredTo(c, ds, sub, index) && sub.joined <= index
    requires Evaluate(c.policyAt(index), ds[index].n) == Evaluated(hasAccess)
    requires after == Offered(index, ds[index].n, hasAccess, sub, Fate(c, ds[index].n, hasAccess, sub))
    ensures DeliveredTo(c, ds, after, index + 1)
  {
    var n := ds[index].n;
    if Fate(c, n, hasAccess, sub) == Failed(true) {
      ExpectedIgnoresLater(c, ds, sub.profile, sub.joined, index, sub.refused, index);
    }
  }

  /** Nobody registered, or left, after the forward in progress began. */
  ghost predicate JoinedOk(s: State) {
    forall id :: id in s.subs ==>
      (if id in s.registered then s.subs[id].joined else s.subs[id].left) <=
      (if s.loop.Forwarding? then s.loop.pass.index else |s.dispatched|)
  }

  ghost predicate Settled(c: Config, s: State) {
    RegistrationOk(s) && PassOk(c, s) && JoinedOk(s) && BlankOk(s) && DeliveriesOk(c, s)
  }

  lemma LockSettles(c: Config, s: State)
    requires Settled(c, s) && s.loop.Received?
    ensures DeliveriesOk(c, ApplyLock(c, s))
  {
    var next := ApplyLock(c, s);
    forall id | id in next.subs
      ensures DeliveredTo(c, next.dispatched, next.subs[id], Upto(next, id))
    {
      if id in s.registered && Evaluate(c.policyAt(|s.dispatched|), s.loop.d.n).Aborted? {
        AbortedOwesNothing(c, s.dispatched, s.subs[id], s.loop.d);
      } else {
        UnaffectedDelivery(c, s.dispatched, s.subs[id], Upto(s, id), s.loop.d);
      }
    }
  }

  /** A visit moves one subscriber past the forward and leaves the others where they are. */
  lemma ForwardFrame(c: Config, s: State, id: string)
    requires RegistrationOk(s) && PassOk(c, s) && Enabled(c, s, Forward(id))
    ensures var next, p := ApplyForward(c, s, id), s.loop.pass;
      && next.subs.Keys == s.subs.Keys
      && Upto(s, id) == p.index && Upto(next, id) == p.index + 1 && next.dispatched == s.dispatched
      && LastDispatch(s) == s.dispatched[p.index] && Evaluate(c.policyAt(p.index), LastDispatch(s).n) == p.evaluation
      && next.subs[id] == Offered(p.index, LastDispatch(s).n, p.evaluation.hasAccess, s.subs[id],
                                  Fate(c, LastDispatch(s).n, p.evaluation.hasAccess, s.subs[id]))
      && (forall other :: other in s.subs && other != id ==>
            next.subs[other] == s.subs[other] && Upto(next, other) == Upto(s, other))
  {
  }

  lemma OneSettles(c: Config, s: State, next: State, id: string)
    requires DeliveriesOk(c, s) && next.dispatched == s.dispatched
    requires next.subs.Keys == s.subs.Keys && id in s.subs
    requires DeliveredTo(c, next.dispatched, next.subs[id], Upto(next, id))
    requires forall other :: other in s.subs && other != id ==>
               next.subs[other] == s.subs[other] && Upto(next, other) == Upto(s, other)
    ensures DeliveriesOk(c, next)
  {
  }

  lemma ForwardSettlesOne(c: Config, s: State, id: string)
    requires RegistrationOk(s) && PassOk(c, s) && Enabled(c, s, Forward(id))
    requires DeliveredTo(c, s.dispatched, s.subs[id], s.loop.pass.index) && s.subs[id].joined <= s.loop.pass.index
    ensures DeliveredTo(c, s.dispatched, ApplyForward(c, s, id).subs[id], s.loop.pass.index + 1)
  {
    var p := s.loop.pass;
    var after := ApplyForward(c, s, id).subs[id];
    assert LastDispatch(s) == s.dispatched[p.index];
    OfferSettles(c, s.dispatched, s.subs[id], p.index, p.evaluation.hasAccess, after);
  }

  lemma ForwardSettles(c: Config, s: State, id: string)
    requires Settled(c, s) && Enabled(c, s, Forward(id))
    ensures DeliveriesOk(c, ApplyForward(c, s, id))
  {
    ForwardFrame(c, s, id);
    assert DeliveredTo(c, s.dispatched, s.subs[id], Upto(s, id));
    ForwardSettlesOne(c, s, id);
    OneSettles(c, s, ApplyForward(c, s, id), id);
  }

  /** A subscriber that has not registered yet has been owed nothing. */
  lemma SubscribeSettles(c: Config, s: State, id: string)
    requires Settled(c, s) && Enabled(c, s, Subscribe(id))
    ensures DeliveriesOk(c, ApplySubscribe(s, id))
  {
  }

  lemma StepSettles(c: Config, s: State, l: Label)
    requires Settled(c, s) && Enabled(c, s, l)
    ensures DeliveriesOk(c, Apply(c, s, l))
  {
    match l
    case Lock => LockSettles(c, s);
    case Forward(id) => ForwardSettles(c, s, id);
    case Subscribe(id) => SubscribeSettles(c, s, id);
    case _ => QuietStepSettles(c, s, l);
  }

  /** The part of a subscription that says what it has been given. */
  ghost predicate SameDelivery(a: Subscription, b: Subscription) {
    a.profile == b.profile && a.accepted == b.accepted && a.refused == b.refused && a.joined == b.joined
  }

  /** Every step but locking, visiting and registering leaves what everyone has been given alone. */
  lemma QuietStepFrame(c: Config, s: State, l: Label)
    requires RegistrationOk(s) && PassOk(c, s)
    requires Enabled(c, s, l) && !l.Lock? && !l.Forward? && !l.Subscribe?
    ensures var next := Apply(c, s, l);
      && next.dispatched == s.dispatched
      && (forall id :: id in s.subs ==>
            id in next.subs && SameDelivery(s.subs[id], next.subs[id]) && Upto(next, id) == Upto(s, id))
      && (forall id :: id in next.subs && id !in s.subs ==>
            next.subs[id].accepted == [] && next.subs[id].refused == {}
            && next.subs[id].joined == 0 && Upto(next, id) == 0)
  {
    if Touches(l) {
      TouchesOne(c, s, l);
      QuietTouch(c, s, l);
    } else {
      OthersTouchNothing(c, s, l);
      QuietLoop(c, s, l);
    }
  }

  /** How far the loop has come with a subscriber, seen from the loop alone. */
  lemma QuietLoop(c: Config, s: State, l: Label)
    requires RegistrationOk(s) && PassOk(c, s)
    requires Enabled(c, s, l) && !l.Lock? && !Touches(l)
    ensures Apply(c, s, l).dispatched == s.dispatched
    ensures forall id :: id in s.subs && id in Apply(c, s, l).subs ==> Upto(Apply(c, s, l), id) == Upto(s, id)
  {
  }

  lemma QuietTouch(c: Config, s: State, l: Label)
    requires RegistrationOk(s) && PassOk(c, s)
    requires Enabled(c, s, l) && Touches(l) && !l.Forward? && !l.Subscribe?
    ensures var next, id := Apply(c, s, l), Touched(l);
      && id in next.subs && next.loop == s.loop
      && (forall other :: other != id ==> (other in next.registered <==> other in s.registered))
      && (id in s.subs ==> SameDelivery(s.subs[id], next.subs[id]) && Upto(next, id) == Upto(s, id))
      && (id !in s.subs ==>
            next.subs[id].accepted == [] && next.subs[id].refused == {}
            && next.subs[id].joined == 0 && Upto(next, id) == 0)
  {
  }

  lemma QuietStepSettles(c: Config, s: State, l: Label)
    requires Settled(c, s) && Enabled(c, s, l) && !l.Lock? && !l.Forward? && !l.Subscribe?
    ensures DeliveriesOk(c, Apply(c, s, l))
  {
    QuietStepFrame(c, s, l);
  }

  lemma StepKeepsSettled(c: Config, s: State, l: Label)
    requires Settled(c, s) && Enabled(c, s, l)
    ensures Settled(c, Apply(c, s, l))
  {
    StepKeepsRegistration(c, s, l);
    StepKeepsPass(c, s, l);
    StepSettles(c, s, l);
    StepKeepsJoined(c, s, l);
    StepKeepsBlank(c, s, l);
  }

  lemma StepKeepsJoined(c: Config, s: State, l: Label)
    requires RegistrationOk(s) && PassOk(c, s) && JoinedOk(s) && Enabled(c, s, l)
    ensures JoinedOk(Apply(c, s, l))
  {
    if Touches(l) {
      TouchesOne(c, s, l);
      TouchKeepsJoined(c, s, l);
    } else {
      OthersTouchNothing(c, s, l);
      LoopKeepsJoined(c, s, l);
    }
  }

  lemma TouchKeepsJoined(c: Config, s: State, l: Label)
    requires RegistrationOk(s) && PassOk(c, s) && JoinedOk(s) && Enabled(c, s, l) && Touches(l)
    ensures var next, id := Apply(c, s, l), Touched(l);
      && (next.loop.Forwarding? <==> s.loop.Forwarding?)
      && (s.loop.Forwarding? ==> next.loop.pass.index == s.loop.pass.index)
      && (forall other :: other != id ==> (other in next.registered <==> other in s.registered))
      && id in next.subs
      && (if id in next.registered then next.subs[id].joined else next.subs[id].left) <=
         (if s.loop.Forwarding? then s.loop.pass.index else |s.dispatched|)
  {
  }

  lemma LoopKeepsJoined(c: Config, s: State, l: Label)
    requires PassOk(c, s) && Enabled(c, s, l) && !Touches(l)
    ensures var next := Apply(c, s, l);
      (if s.loop.Forwarding? then s.loop.pass.index else |s.dispatched|) <=
      (if next.loop.Forwarding? then next.loop.pass.index else |next.dispatched|)
  {
  }

  /** Before it registers a subscriber has been given nothing. */
  ghost predicate BlankOk(s: State) {
    forall id :: id in s.subs ==> Blank(s.subs[id])
  }

  ghost predicate Blank(sub: Subscription) {
    sub.handler.phase.Subscribing? ==> sub.accepted == [] && sub.refused == {} && sub.joined == 0 && sub.left == 0
  }

  lemma TouchKeepsBlank(c: Config, s: State, l: Label)
    requires RegistrationOk(s) && PassOk(c, s) && Enabled(c, s, l) && Touches(l)
    requires Touched(l) in s.subs ==> Blank(s.subs[Touched(l)])
    ensures Touched(l) in Apply(c, s, l).subs && Blank(Apply(c, s, l).subs[Touched(l)])
  {
  }

  lemma StepKeepsBlank(c: Config, s: State, l: Label)
    requires RegistrationOk(s) && PassOk(c, s) && BlankOk(s) && Enabled(c, s, l)
    ensures BlankOk(Apply(c, s, l))
  {
    if Touches(l) {
      TouchesOne(c, s, l);
      TouchKeepsBlank(c, s, l);
    } else {
      OthersTouchNothing(c, s, l);
    }
  }

  // ---------------------------------------------------------------- refusals

  /** It accepted sixteen forwards before the first one it was refused. */
  ghost predicate Patient(sub: Subscription) {
    forall i :: i in sub.refused ==> |sub.accepted| >= 16 && sub.accepted[15].index < i
  }

  ghost predicate PatienceOk(s: State) {
    forall id :: id in s.subs ==> Patient(s.subs[id])
  }

  lemma OfferKeepsPatience(c: Config, index: nat, n: NotificationModel, hasAccess: bool, sub: Subscription)
    requires Patient(sub) && |sub.buffer| <= |sub.accepted|
    requires forall e :: e in sub.accepted ==> e.index < index
    ensures Patient(Offered(index, n, hasAccess, sub, Fate(c, n, hasAccess, sub)))
  {
    if |sub.accepted| >= 16 {
      assert sub.accepted[15] in sub.accepted;
    }
  }

  lemma VisitedBefore(c: Config, s: State, id: string)
    requires Settled(c, s) && Enabled(c, s, Forward(id))
    ensures forall e :: e in s.subs[id].accepted ==> e.index < s.loop.pass.index
  {
    ForwardFrame(c, s, id);
    var sub := s.subs[id];
    assert DeliveredTo(c, s.dispatched, sub, Upto(s, id));
    ExpectedEntries(c, s.dispatched, sub.profile, sub.joined, Upto(s, id), sub.refused);
  }

  lemma TouchKeepsPatience(c: Config, s: State, l: Label)
    requires Enabled(c, s, l) && Touches(l) && !l.Forward?
    requires Touched(l) in s.subs ==> Patient(s.subs[Touched(l)])
    ensures Touched(l) in Apply(c, s, l).subs && Patient(Apply(c, s, l).subs[Touched(l)])
  {
  }

  lemma StepKeepsPatience(c: Config, s: State, l: Label)
    requires Settled(c, s) && StreamsOk(c, s) && PatienceOk(s) && Enabled(c, s, l)
    ensures PatienceOk(Apply(c, s, l))
  {
    if l.Forward? {
      TouchesOne(c, s, l);
      VisitedBefore(c, s, l.id);
      assert StreamOk(c, s.now, s.subs[l.id]);
      OfferKeepsPatience(c, s.loop.pass.index, LastDispatch(s).n, s.loop.pass.evaluation.hasAccess, s.subs[l.id]);
    } else if Touches(l) {
      TouchesOne(c, s, l);
      TouchKeepsPatience(c, s, l);
    } else {
      OthersTouchNothing(c, s, l);
    }
  }
}
