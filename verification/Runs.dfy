// What holds over whole runs of the step system, whatever the interleaving.
module Runs {

  import opened Basics
  import opened Text
  import opened Notifications
  import opened Subscribers
  import opened History
  import opened Dispatching
  import opened Handler
  import opened Protocol
  import opened Invariants
  import opened Delivery
  import opened Accounting

  ghost predicate Inv(c: Config, s: State) {
    && Settled(c, s)
    && RecordsOk(s)
    && Conserved(s)
    && DatesOk(c, s)
    && HistoryOk(c, s)
    && StreamsOk(c, s)
    && LogOk(c, s)
    && PatienceOk(s)
  }

  lemma InitialInv(c: Config)
    ensures Inv(c, INITIAL)
  {
  }

  lemma StepKeepsInv(c: Config, s: State, l: Label)
    requires Inv(c, s) && Enabled(c, s, l)
    ensures Inv(c, Apply(c, s, l))
  {
    StepKeepsSettled(c, s, l);
    StepKeepsRecords(c, s, l);
    StepConserves(c, s, l);
    StepKeepsDates(c, s, l);
    StepKeepsHistory(c, s, l);
    StepKeepsStreams(c, s, l);
    StepKeepsLog(c, s, l);
    StepKeepsPatience(c, s, l);
  }

  lemma {:induction false} RunKeepsInv(c: Config, s: State, labels: seq<Label>)
    requires Inv(c, s) && Valid(c, s, labels)
    ensures Inv(c, Exec(c, s, labels))
    decreases |labels|
  {
    if labels != [] {
      StepKeepsInv(c, s, labels[0]);
      RunKeepsInv(c, Apply(c, s, labels[0]), labels[1..]);
    }
  }

  lemma ReachableInv(c: Config, s: State)
    requires Reachable(c, s)
    ensures Inv(c, s)
  {
    var labels :| Valid(c, INITIAL, labels) && s == Exec(c, INITIAL, labels);
    InitialInv(c);
    RunKeepsInv(c, INITIAL, labels);
  }

  lemma {:induction false} ExecConcat(c: Config, s: State, labels: seq<Label>, more: seq<Label>)
    requires Valid(c, s, labels) && Valid(c, Exec(c, s, labels), more)
    ensures Valid(c, s, labels + more) && Exec(c, s, labels + more) == Exec(c, Exec(c, s, labels), more)
    decreases |labels|
  {
    if labels == [] {
      assert labels + more == more;
    } else {
      ExecConcat(c, Apply(c, s, labels[0]), labels[1..], more);
      assert (labels + more)[1..] == labels[1..] + more;
    }
  }

  lemma ExecAppend(c: Config, s: State, labels: seq<Label>, l: Label)
    requires Valid(c, s, labels) && Enabled(c, Exec(c, s, labels), l)
    ensures Valid(c, s, labels + [l]) && Exec(c, s, labels + [l]) == Apply(c, Exec(c, s, labels), l)
  {
    assert [l][1..] == [];
    assert Valid(c, Apply(c, Exec(c, s, labels), l), []);
    ExecConcat(c, s, labels, [l]);
  }

  lemma OneStep(c: Config, t: State, m: Label)
    requires Enabled(c, t, m)
    ensures Valid(c, t, [m]) && Exec(c, t, [m]) == Apply(c, t, m)
  {
    assert [m][1..] == [] && Valid(c, Apply(c, t, m), []);
  }

  lemma ReachableStep(c: Config, s: State, l: Label)
    requires Reachable(c, s) && Enabled(c, s, l)
    ensures Reachable(c, Apply(c, s, l))
  {
    var labels :| Valid(c, INITIAL, labels) && s == Exec(c, INITIAL, labels);
    ExecAppend(c, INITIAL, labels, l);
  }

  // ---------------------------------------------------------------- total order

  /** The forwards a subscriber's messages come from. */
  function Indices(entries: seq<Entry>): (r: seq<nat>)
    ensures |r| == |entries|
    ensures forall i :: 0 <= i < |entries| ==> r[i] == entries[i].index
  {
    seq(|entries|, i requires 0 <= i < |entries| => entries[i].index)
  }

  ghost predicate Ascending(xs: seq<nat>) {
    forall i, j :: 0 <= i < j < |xs| ==> xs[i] < xs[j]
  }

  /** The elements of one sequence that also occur in another, in the order of the first. */
  function Common(xs: seq<nat>, ys: seq<nat>): seq<nat> {
    if xs == [] then []
    else Common(xs[..|xs| - 1], ys) + if xs[|xs| - 1] in ys then [xs[|xs| - 1]] else []
  }

  lemma {:induction false} CommonElements(xs: seq<nat>, ys: seq<nat>)
    requires Ascending(xs)
    ensures Ascending(Common(xs, ys))
    ensures forall x :: x in Common(xs, ys) <==> x in xs && x in ys
  {
    if xs != [] {
      var front, last := xs[..|xs| - 1], xs[|xs| - 1];
      assert xs == front + [last];
      CommonElements(front, ys);
      assert forall i :: 0 <= i < |Common(front, ys)| ==> Common(front, ys)[i] in front;
    }
  }

  lemma FrontElements(xs: seq<nat>, front: seq<nat>, last: nat)
    requires Ascending(xs) && xs == front + [last]
    ensures Ascending(front)
    ensures forall x :: x in front <==> x in xs && x != last
    ensures forall x :: x in xs ==> x <= last
  {
    assert forall i :: 0 <= i < |front| ==> front[i] == xs[i];
    assert xs[|front|] == last;
    forall x | x in xs
      ensures x <= last && (x in front || x == last)
    {
      var i :| 0 <= i < |xs| && xs[i] == x;
    }
    forall x | x in front
      ensures x in xs && x != last
    {
      var i :| 0 <= i < |front| && front[i] == x;
      assert xs[i] < xs[|front|];
    }
  }

  ghost predicate SameElements(xs: seq<nat>, ys: seq<nat>) {
    forall x :: x in xs <==> x in ys
  }

  lemma LastAgrees(xs: seq<nat>, ys: seq<nat>)
    requires Ascending(xs) && Ascending(ys) && SameElements(xs, ys) && xs != []
    ensures ys != [] && ys[|ys| - 1] == xs[|xs| - 1]
  {
    assert xs[0] in ys;
    assert xs[|xs| - 1] in ys && ys[|ys| - 1] in xs;
  }

  lemma FrontsAgree(xs: seq<nat>, ys: seq<nat>, front: seq<nat>, front': seq<nat>, last: nat)
    requires Ascending(xs) && Ascending(ys) && SameElements(xs, ys)
    requires xs == front + [last] && ys == front' + [last]
    ensures Ascending(front) && Ascending(front') && SameElements(front, front')
  {
    FrontElements(xs, front, last);
    FrontElements(ys, front', last);
  }

  lemma {:induction false} AscendingUnique(xs: seq<nat>, ys: seq<nat>)
    requires Ascending(xs) && Ascending(ys) && SameElements(xs, ys)
    ensures xs == ys
  {
    if ys != [] {
      assert ys[0] in xs;
    }
    if xs != [] {
      LastAgrees(xs, ys);
      var front, front', last := xs[..|xs| - 1], ys[..|ys| - 1], xs[|xs| - 1];
      assert xs == front + [last] && ys == front' + [last];
      FrontsAgree(xs, ys, front, front', last);
      AscendingUnique(front, front');
    }
  }

  lemma AcceptedAscends(c: Config, s: State, id: string)
    requires DeliveriesOk(c, s) && id in s.subs
    ensures Ascending(Indices(s.subs[id].accepted))
  {
    var sub := s.subs[id];
    assert DeliveredTo(c, s.dispatched, sub, Upto(s, id));
    ExpectedEntries(c, s.dispatched, sub.profile, sub.joined, Upto(s, id), sub.refused);
  }

  lemma PrefixAscends(xs: seq<Entry>, ys: seq<Entry>)
    requires Ascending(Indices(xs + ys))
    ensures Ascending(Indices(xs))
  {
    assert forall i :: 0 <= i < |xs| ==> Indices(xs)[i] == Indices(xs + ys)[i];
  }

  lemma StreamShape(c: Config, now: int, sub: Subscription)
    requires StreamOk(c, now, sub)
    ensures sub.accepted == NotesOf(sub.handler.frames) + (InHand(sub.handler) + sub.buffer)
    ensures |InHand(sub.handler)| <= 1 && |sub.buffer| <= 16
  {
  }

  lemma ReachableShape(c: Config, s: State, id: string)
    requires Reachable(c, s) && id in s.subs
    ensures var sub := s.subs[id];
      && sub.accepted == NotesOf(sub.handler.frames) + (InHand(sub.handler) + sub.buffer)
      && |InHand(sub.handler)| <= 1 && |sub.buffer| <= 16
  {
    ReachableInv(c, s);
    StreamShape(c, s.now, s.subs[id]);
  }

  lemma ReachableAscends(c: Config, s: State, id: string)
    requires Reachable(c, s) && id in s.subs
    ensures Ascending(Indices(s.subs[id].accepted))
  {
    ReachableInv(c, s);
    AcceptedAscends(c, s, id);
  }

  /** What a subscriber's stream shows is a prefix of what its buffer accepted, in forward order. */
  lemma StreamOrder(c: Config, s: State, id: string)
    requires Reachable(c, s) && id in s.subs
    ensures var sub := s.subs[id];
      && Ascending(Indices(sub.accepted))
      && Ascending(Indices(NotesOf(sub.handler.frames)))
      && sub.accepted == NotesOf(sub.handler.frames) + (InHand(sub.handler) + sub.buffer)
      && |InHand(sub.handler)| <= 1 && |sub.buffer| <= 16
  {
    ReachableShape(c, s, id);
    ReachableAscends(c, s, id);
    PrefixAscends(NotesOf(s.subs[id].handler.frames), InHand(s.subs[id].handler) + s.subs[id].buffer);
  }

  /** Any two subscribers see, and hold, their common notifications in the same order. */
  lemma TotalOrder(c: Config, s: State, a: string, b: string)
    requires Reachable(c, s) && a in s.subs && b in s.subs
    ensures var x, y := Indices(s.subs[a].accepted), Indices(s.subs[b].accepted);
      Common(x, y) == Common(y, x)
    ensures var x, y := Indices(NotesOf(s.subs[a].handler.frames)), Indices(NotesOf(s.subs[b].handler.frames));
      Common(x, y) == Common(y, x)
  {
    StreamOrder(c, s, a);
    StreamOrder(c, s, b);
    SameOrder(Indices(s.subs[a].accepted), Indices(s.subs[b].accepted));
    SameOrder(Indices(NotesOf(s.subs[a].handler.frames)), Indices(NotesOf(s.subs[b].handler.frames)));
  }

  lemma SameOrder(x: seq<nat>, y: seq<nat>)
    requires Ascending(x) && Ascending(y)
    ensures Common(x, y) == Common(y, x)
  {
    CommonElements(x, y);
    CommonElements(y, x);
    AscendingUnique(Common(x, y), Common(y, x));
  }

  // ---------------------------------------------------------------- exact delivery

  /**
   * A subscriber holds a message of a forward that has been past it exactly when the forward owed
   * it one and did not find its buffer full; never refused, it holds everything it was owed.
   */
  lemma ExactDelivery(c: Config, s: State, id: string, index: nat)
    requires Reachable(c, s) && id in s.subs
    ensures Upto(s, id) <= |s.dispatched|
    ensures s.subs[id].joined <= index < Upto(s, id) ==>
      (Got(s.subs[id].accepted, index) <==>
       Deliverable(c, index, s.dispatched[index], s.subs[id].profile) && index !in s.subs[id].refused)
    ensures index < s.subs[id].joined || index >= Upto(s, id) ==> !Got(s.subs[id].accepted, index)
    ensures s.subs[id].refused == {} ==>
      s.subs[id].accepted == Expected(c, s.dispatched, s.subs[id].profile, s.subs[id].joined, Upto(s, id), {})
  {
    ReachableInv(c, s);
    assert DeliveredTo(c, s.dispatched, s.subs[id], Upto(s, id));
    HeldExactly(c, s, id, index);
  }

  /**
   * Who is given what, condition by condition: a test goes to monitors whatever their types and
   * options, and whatever the policy answers; anything else to whoever the policy allows, has a
   * matching type, and for related content the unstable option. Either way the message must encode
   * and the buffer must not have been full.
   */
  lemma ReceivedExactly(c: Config, s: State, id: string, index: nat)
    requires Reachable(c, s) && id in s.subs && index < |s.dispatched| && Passed(s, id, index)
    ensures var n, profile := s.dispatched[index].n, s.subs[id].profile;
      var evaluation := Evaluate(c.policyAt(index), n);
      Got(s.subs[id].accepted, index) <==>
        && evaluation.Evaluated?
        && (if n.isE2ETest then profile.kind == Monitor
            else
              && evaluation.hasAccess
              && ((n.eventType == "http://www.ft.com/thing/ThingChangeType/DELETE" && n.subscriptionType == "")
                  || exists i :: 0 <= i < |profile.subTypes|
                                 && ToLower(profile.subTypes[i]) == ToLower(n.subscriptionType))
              && (n.eventType == "http://www.ft.com/thing/ThingChangeType/RELATEDCONTENT" ==>
                    profile.options.receiveInternalUnstable))
        && c.encode(ResponseFor(profile, n)).Some?
        && index !in s.subs[id].refused
  {
    ReachableSettled(c, s);
    HeldExactly(c, s, id, index);
  }

  /** A test whose forward was evaluated reaches exactly the monitors it passes, if they have room. */
  lemma TestsReachMonitors(c: Config, s: State, id: string, index: nat)
    requires Reachable(c, s) && id in s.subs && index < |s.dispatched| && Passed(s, id, index)
    requires s.dispatched[index].n.isE2ETest && Evaluate(c.policyAt(index), s.dispatched[index].n) != Aborted
    ensures Got(s.subs[id].accepted, index) <==>
            s.subs[id].profile.kind == Monitor
            && c.encode(ResponseFor(s.subs[id].profile, s.dispatched[index].n)).Some?
            && index !in s.subs[id].refused
  {
    ReceivedExactly(c, s, id, index);
  }

  /** Nobody is refused a forward before it has accepted sixteen earlier ones. */
  lemma RefusedOnlyAfterSixteen(c: Config, s: State, id: string, index: nat)
    requires Reachable(c, s) && id in s.subs && index in s.subs[id].refused
    ensures |s.subs[id].accepted| >= 16 && s.subs[id].accepted[15].index < index
  {
    ReachableInv(c, s);
    assert Patient(s.subs[id]);
  }

  /** What one offer does, in terms of what the forward owes the subscriber. */
  lemma OfferEffect(c: Config, index: nat, d: Dispatch, hasAccess: bool, sub: Subscription)
    requires Evaluate(c.policyAt(index), d.n) == Evaluated(hasAccess) && |sub.buffer| <= 16
    ensures var after := Offered(index, d.n, hasAccess, sub, Fate(c, d.n, hasAccess, sub));
      var owed := Deliverable(c, index, d, sub.profile);
      && (owed && |sub.buffer| < 16 ==>
            after == sub.(buffer := sub.buffer + [EntryFor(c, index, d, sub.profile)],
                          accepted := sub.accepted + [EntryFor(c, index, d, sub.profile)]))
      && (owed && |sub.buffer| == 16 ==> after == sub.(refused := sub.refused + {index}))
      && (!owed ==> after == sub)
  {
  }

  lemma VisitedState(c: Config, s: State, id: string)
    requires PassOk(c, s) && StreamsOk(c, s) && Enabled(c, s, Forward(id))
    ensures |s.subs[id].buffer| <= 16
    ensures Evaluate(c.policyAt(s.loop.pass.index), LastDispatch(s).n) == s.loop.pass.evaluation
  {
  }

  lemma ReachableVisit(c: Config, s: State, id: string)
    requires Reachable(c, s) && Enabled(c, s, Forward(id))
    ensures |s.subs[id].buffer| <= 16
    ensures Evaluate(c.policyAt(s.loop.pass.index), LastDispatch(s).n) == s.loop.pass.evaluation
  {
    ReachableInv(c, s);
    VisitedState(c, s, id);
  }

  /**
   * One visit: the subscriber gains exactly one message iff the forward owes it one and its buffer
   * has room; it is refused iff one is owed and the buffer is full; nobody else changes.
   */
  lemma VisitEffect(c: Config, s: State, id: string)
    requires Reachable(c, s) && Enabled(c, s, Forward(id))
    ensures var next, index, d := Apply(c, s, Forward(id)), s.loop.pass.index, LastDispatch(s);
      var sub, after := s.subs[id], next.subs[id];
      var owed := Deliverable(c, index, d, sub.profile);
      && (owed && |sub.buffer| < 16 ==>
            after == sub.(buffer := sub.buffer + [EntryFor(c, index, d, sub.profile)],
                          accepted := sub.accepted + [EntryFor(c, index, d, sub.profile)]))
      && (owed && |sub.buffer| == 16 ==> after == sub.(refused := sub.refused + {index}))
      && (!owed ==> after == sub)
      && (forall other :: other in s.subs && other != id ==> next.subs[other] == s.subs[other])
      && next.subs.Keys == s.subs.Keys && next.registered == s.registered
  {
    ReachableVisit(c, s, id);
    OfferEffect(c, s.loop.pass.index, LastDispatch(s), s.loop.pass.evaluation.hasAccess, s.subs[id]);
  }

  // ---------------------------------------------------------------- the dispatcher keeps going

  /** The label with which the loop goes on; a notification just waits when the loop is idle. */
  predicate IsLoopLabel(l: Label) {
    l.Lock? || l.Forward? || l.Unlock? || l.Record?
  }

  /** The sort has an outcome, so the history push can always go ahead. */
  lemma RecordingCanGoOn(c: Config, s: State)
    requires PassOk(c, s) && s.loop.Recording?
    ensures exists l :: IsLoopLabel(l) && Enabled(c, s, l)
  {
    var sorted := SortExists(c.parse, multiset(s.history + [LastDispatch(s).n]));
    assert IsLoopLabel(Record(sorted)) && Enabled(c, s, Record(sorted));
  }

  lemma ForwardingCanGoOn(c: Config, s: State)
    requires RegistrationOk(s) && PassOk(c, s) && s.loop.Forwarding?
    ensures exists l :: IsLoopLabel(l) && Enabled(c, s, l)
    ensures forall id :: id in s.loop.pass.todo ==> Enabled(c, s, Forward(id))
  {
    if s.loop.pass.todo == {} {
      assert IsLoopLabel(Unlock) && Enabled(c, s, Unlock);
    } else {
      var id :| id in s.loop.pass.todo;
      assert IsLoopLabel(Forward(id)) && Enabled(c, s, Forward(id));
    }
  }

  lemma ReachablePass(c: Config, s: State)
    requires Reachable(c, s)
    ensures RegistrationOk(s) && PassOk(c, s)
  {
    ReachableInv(c, s);
  }

  /** Whatever the state of the buffers, a busy dispatcher has a step to take. */
  lemma DispatcherNeverStuck(c: Config, s: State)
    requires Reachable(c, s) && !s.loop.Idle? && !s.loop.Stopped?
    ensures exists l :: IsLoopLabel(l) && Enabled(c, s, l)
    ensures s.loop.Forwarding? ==> forall id :: id in s.loop.pass.todo ==> Enabled(c, s, Forward(id))
  {
    ReachablePass(c, s);
    match s.loop
    case Received(_) => assert IsLoopLabel(Lock) && Enabled(c, s, Lock);
    case Forwarding(_) => ForwardingCanGoOn(c, s);
    case Recording => RecordingCanGoOn(c, s);
  }

  // ---------------------------------------------------------------- order of the visits

  /** The fate of every subscriber the forward still has to visit. */
  ghost function Fates(c: Config, s: State): map<string, Outcome>
    requires s.loop.Forwarding? && s.loop.pass.evaluation.Evaluated? && s.dispatched != []
    requires s.loop.pass.todo <= s.subs.Keys
  {
    map id | id in s.loop.pass.todo :: Fate(c, LastDispatch(s).n, s.loop.pass.evaluation.hasAccess, s.subs[id])
  }

  function AddTotals(a: Totals, b: Totals): Totals {
    Totals(a.sent + b.sent, a.failed + b.failed, a.skipped + b.skipped)
  }

  /** The state after everybody in `visited` has been visited and nothing else has happened. */
  ghost function AfterVisits(c: Config, s: State, visited: set<string>): State
    requires s.loop.Forwarding? && s.loop.pass.evaluation.Evaluated? && s.dispatched != []
    requires visited <= s.loop.pass.todo <= s.subs.Keys
  {
    var p, n, hasAccess := s.loop.pass, LastDispatch(s).n, s.loop.pass.evaluation.hasAccess;
    s.(subs := map id | id in s.subs ::
         if id in visited then Offered(p.index, n, hasAccess, s.subs[id], Fates(c, s)[id]) else s.subs[id],
       loop := Forwarding(p.(todo := p.todo - visited, totals := AddTotals(p.totals, Tally(Fates(c, s), visited)))))
  }

  function Visits(order: seq<string>): seq<Label> {
    Map(id => Forward(id), order)
  }

  lemma OneMoreBuffer(c: Config, s: State, visited: set<string>, id: string)
    requires s.loop.Forwarding? && s.loop.pass.evaluation.Evaluated? && s.dispatched != []
    requires visited <= s.loop.pass.todo <= s.subs.Keys && id in s.loop.pass.todo && id !in visited
    ensures var now := AfterVisits(c, s, visited);
      && now.subs[id] == s.subs[id]
      && AfterVisits(c, s, visited + {id}).subs ==
         now.subs[id := Offered(s.loop.pass.index, LastDispatch(s).n, s.loop.pass.evaluation.hasAccess,
                                s.subs[id], Fates(c, s)[id])]
  {
  }

  lemma OneMoreCount(c: Config, s: State, visited: set<string>, id: string)
    requires s.loop.Forwarding? && s.loop.pass.evaluation.Evaluated? && s.dispatched != []
    requires visited <= s.loop.pass.todo <= s.subs.Keys && id in s.loop.pass.todo && id !in visited
    ensures var now, next := AfterVisits(c, s, visited).loop.pass, AfterVisits(c, s, visited + {id}).loop.pass;
      next == now.(todo := now.todo - {id}, totals := Count(now.totals, Fates(c, s)[id]))
  {
    TallyVisit(Fates(c, s), visited, id);
  }

  lemma OneMoreVisit(c: Config, s: State, visited: set<string>, id: string)
    requires s.loop.Forwarding? && s.loop.pass.evaluation.Evaluated? && s.dispatched != []
    requires visited <= s.loop.pass.todo <= s.subs.Keys && id in s.loop.pass.todo && id !in visited
    ensures Enabled(c, AfterVisits(c, s, visited), Forward(id))
    ensures Apply(c, AfterVisits(c, s, visited), Forward(id)) == AfterVisits(c, s, visited + {id})
  {
    OneMoreBuffer(c, s, visited, id);
    OneMoreCount(c, s, visited, id);
  }

  lemma {:induction false} VisitsFrom(c: Config, s: State, visited: set<string>, order: seq<string>)
    requires s.loop.Forwarding? && s.loop.pass.evaluation.Evaluated? && s.dispatched != []
    requires visited <= s.loop.pass.todo <= s.subs.Keys
    requires IsOrderOf(order, s.loop.pass.todo - visited)
    ensures Valid(c, AfterVisits(c, s, visited), Visits(order))
    ensures Exec(c, AfterVisits(c, s, visited), Visits(order)) == AfterVisits(c, s, s.loop.pass.todo)
    decreases |order|
  {
    if order == [] {
      assert s.loop.pass.todo - visited == {} by {
        assert forall x :: x in s.loop.pass.todo - visited ==> x in order;
      }
      assert visited + (s.loop.pass.todo - visited) == s.loop.pass.todo;
      assert visited == s.loop.pass.todo;
    } else {
      OneMoreVisit(c, s, visited, order[0]);
      assert Visits(order)[1..] == Visits(order[1..]);
      assert s.loop.pass.todo - (visited + {order[0]}) == s.loop.pass.todo - visited - {order[0]};
      VisitsFrom(c, s, visited + {order[0]}, order[1..]);
    }
  }

  lemma NoVisitsYet(c: Config, s: State)
    requires s.loop.Forwarding? && s.loop.pass.evaluation.Evaluated? && s.dispatched != []
    requires s.loop.pass.todo <= s.subs.Keys
    ensures AfterVisits(c, s, {}) == s && s.loop.pass.todo - {} == s.loop.pass.todo
  {
  }

  /**
   * With nothing in between, every order of the visits leads to the same buffers and counters, in
   * one step per subscriber.
   */
  lemma VisitOrderIrrelevant(c: Config, s: State, order: seq<string>)
    requires Reachable(c, s) && s.loop.Forwarding? && s.loop.pass.evaluation.Evaluated?
    requires IsOrderOf(order, s.loop.pass.todo)
    ensures s.dispatched != [] && s.loop.pass.todo <= s.subs.Keys
    ensures Valid(c, s, Visits(order)) && Exec(c, s, Visits(order)) == AfterVisits(c, s, s.loop.pass.todo)
    ensures |Visits(order)| == |s.loop.pass.todo|
  {
    ReachableInv(c, s);
    NoVisitsYet(c, s);
    VisitsFrom(c, s, {}, order);
    CountAllIsTally(Fates(c, s), order, s.loop.pass.todo);
  }

  // ---------------------------------------------------------------- conservation

  /** Nothing is lost or sent twice, and every forward but the current one is in the history's log. */
  lemma ExactlyOnce(c: Config, s: State)
    requires Reachable(c, s)
    ensures Conserved(s)
    ensures s.loop.Idle? || s.loop.Received? || s.loop.Stopped? ==>
      s.pushed == Map(Model, s.dispatched) && |s.log| == |s.dispatched|
    ensures s.loop.Forwarding? || s.loop.Recording? ==>
      s.dispatched != [] && s.pushed == Map(Model, s.dispatched[..|s.dispatched| - 1])
  {
    ReachableInv(c, s);
    assert s.dispatched[..|s.dispatched|] == s.dispatched;
  }

  /** Once stopped, nothing more is forwarded or recorded. */
  lemma {:induction false} StoppedForGood(c: Config, s: State, labels: seq<Label>)
    requires s.loop.Stopped? && Valid(c, s, labels)
    ensures var after := Exec(c, s, labels);
      && after.loop.Stopped? && after.dispatched == s.dispatched
      && after.pushed == s.pushed && after.history == s.history && after.log == s.log
      && s.sends <= after.sends
      && forall id :: id in s.subs ==> id in after.subs && after.subs[id].accepted == s.subs[id].accepted
    decreases |labels|
  {
    if labels != [] {
      AcceptedFrame(c, s, labels[0]);
      StoppedForGood(c, Apply(c, s, labels[0]), labels[1..]);
    }
  }

  /** Everything sent that no forward or the loop has taken: on its way, or blocked. */
  function Untaken(s: State): multiset<NotificationModel> {
    multiset(Map(Waiting, s.senders)) + multiset(Map(Stuck, s.blocked))
  }

  lemma UntakenAtStop(s: State)
    requires Conserved(s) && s.loop.Stopped?
    ensures multiset(Map(Undated, s.sends)) == Untaken(s) + multiset(Map(Begun, s.dispatched))
  {
  }

  lemma LaterSends(sends: seq<NotificationModel>, all: seq<NotificationModel>)
    requires sends <= all
    ensures multiset(Map(Undated, all)) == multiset(Map(Undated, sends)) + multiset(Map(Undated, all[|sends|..]))
  {
    var later := Map(Undated, all[|sends|..]);
    assert Map(Undated, all) == Map(Undated, sends) + later;
  }

  lemma ReachableUntaken(c: Config, s: State)
    requires Reachable(c, s) && s.loop.Stopped?
    ensures multiset(Map(Undated, s.sends)) == Untaken(s) + multiset(Map(Begun, s.dispatched))
  {
    ReachableInv(c, s);
    UntakenAtStop(s);
  }

  lemma ReachableRun(c: Config, s: State, labels: seq<Label>)
    requires Reachable(c, s) && Valid(c, s, labels)
    ensures Reachable(c, Exec(c, s, labels))
  {
    var before :| Valid(c, INITIAL, before) && s == Exec(c, INITIAL, before);
    ExecConcat(c, INITIAL, before, labels);
  }

  lemma Cancel<T>(all: multiset<T>, left: multiset<T>, gone: multiset<T>, more: multiset<T>, later: multiset<T>)
    requires all == left + gone && all + more == later + gone
    ensures later == left + more
  {
    assert later == all + more - gone && left == all - gone;
  }

  /** What Stop costs: whatever is untaken at that moment, or sent later, stays untaken for ever. */
  lemma StopLosesUntaken(c: Config, s: State, labels: seq<Label>)
    requires Reachable(c, s) && s.loop.Stopped? && Valid(c, s, labels)
    ensures var after := Exec(c, s, labels);
      && s.sends <= after.sends && after.dispatched == s.dispatched && after.pushed == s.pushed
      && Untaken(after) == Untaken(s) + multiset(Map(Undated, after.sends[|s.sends|..]))
  {
    var after := Exec(c, s, labels);
    StoppedForGood(c, s, labels);
    ReachableRun(c, s, labels);
    ReachableUntaken(c, s);
    ReachableUntaken(c, after);
    LaterSends(s.sends, after.sends);
    Cancel(multiset(Map(Undated, s.sends)), Untaken(s), multiset(Map(Begun, s.dispatched)),
           multiset(Map(Undated, after.sends[|s.sends|..])), Untaken(after));
  }

  // ---------------------------------------------------------------- registration

  /** The registered subscribers are those whose handler is between registering and unregistering. */
  lemma RegisteredExactly(c: Config, s: State)
    requires Reachable(c, s)
    ensures s.registered == set id | id in s.subs && InService(s.subs[id].handler.phase)
  {
    ReachableInv(c, s);
  }

  /** A handler that returned takes exactly its own subscriber away, as soon as the lock is free. */
  lemma LeavingRemovesOne(c: Config, s: State, id: string)
    requires Reachable(c, s) && id in s.subs && s.subs[id].handler.phase.Closing?
    ensures id in s.registered
    ensures Enabled(c, s, Unsubscribe(id)) <==> !s.loop.Forwarding?
    ensures Enabled(c, s, Unsubscribe(id)) ==>
      var next := Apply(c, s, Unsubscribe(id));
      && next.registered == s.registered - {id}
      && next.subs[id].buffer == s.subs[id].buffer
      && forall other :: other in s.subs && other != id ==> next.subs[other] == s.subs[other]
  {
    ReachablePass(c, s);
  }

  ghost predicate StillGone(sub: Subscription, after: Subscription) {
    && after.handler.phase.Gone? && after.buffer == sub.buffer && after.accepted == sub.accepted
    && after.handler.frames == sub.handler.frames
  }

  lemma GoneTouch(c: Config, s: State, l: Label, id: string)
    requires RegistrationOk(s) && PassOk(c, s) && Enabled(c, s, l) && Touches(l) && Touched(l) == id
    requires id in s.subs && s.subs[id].handler.phase.Gone?
    ensures id in Apply(c, s, l).subs && StillGone(s.subs[id], Apply(c, s, l).subs[id])
  {
  }

  lemma GoneStep(c: Config, s: State, l: Label, id: string)
    requires RegistrationOk(s) && PassOk(c, s) && Enabled(c, s, l)
    requires id in s.subs && s.subs[id].handler.phase.Gone?
    ensures id in Apply(c, s, l).subs && StillGone(s.subs[id], Apply(c, s, l).subs[id])
    ensures id !in Apply(c, s, l).registered
  {
    if Touches(l) {
      TouchesOne(c, s, l);
      if Touched(l) == id {
        GoneTouch(c, s, l, id);
      }
    } else {
      OthersTouchNothing(c, s, l);
    }
    StepKeepsRegistration(c, s, l);
  }

  lemma {:induction false} GoneStays(c: Config, s: State, labels: seq<Label>, id: string)
    requires Inv(c, s) && Valid(c, s, labels)
    requires id in s.subs && s.subs[id].handler.phase.Gone?
    ensures var after := Exec(c, s, labels);
      && id in after.subs && id !in after.registered
      && after.subs[id].buffer == s.subs[id].buffer && after.subs[id].accepted == s.subs[id].accepted
      && after.subs[id].handler.frames == s.subs[id].handler.frames
    decreases |labels|
  {
    if labels != [] {
      GoneStep(c, s, labels[0], id);
      StepKeepsInv(c, s, labels[0]);
      GoneStays(c, Apply(c, s, labels[0]), labels[1..], id);
    }
  }

  /** Nothing enters the buffer, or the stream, of a subscriber that has unregistered. */
  lemma GoneForGood(c: Config, s: State, labels: seq<Label>, id: string)
    requires Reachable(c, s) && Valid(c, s, labels)
    requires id in s.subs && s.subs[id].handler.phase.Gone?
    ensures var after := Exec(c, s, labels);
      && id in after.subs && id !in after.registered
      && after.subs[id].buffer == s.subs[id].buffer && after.subs[id].accepted == s.subs[id].accepted
      && after.subs[id].handler.frames == s.subs[id].handler.frames
  {
    ReachableInv(c, s);
    GoneStays(c, s, labels, id);
  }

  // ---------------------------------------------------------------- failing closed

  /** An aborted forward reaches nobody, test or not, and is recorded all the same. */
  lemma AbortedReachesNobody(c: Config, s: State, index: nat)
    requires Reachable(c, s) && index < |s.dispatched|
    requires Evaluate(c.policyAt(index), s.dispatched[index].n).Aborted?
    ensures Receivers(s, index) == {}
    ensures index < |s.dispatched| - 1 || s.loop.Idle? ==>
      index < |s.pushed| && s.pushed[index] == s.dispatched[index].n
  {
    ReachableInv(c, s);
    forall id | id in s.subs
      ensures !Got(s.subs[id].accepted, index)
    {
      ExactDelivery(c, s, id, index);
    }
  }

  /**
   * The policy's answer about the desk and the publication decides: an error keeps the forward from
   * everybody, and a refusal from everybody unless the notification is a test.
   */
  lemma PolicyDecides(c: Config, s: State, index: nat, publication: string)
    requires Reachable(c, s) && index < |s.dispatched|
    requires match s.dispatched[index].n.publication
             case None => publication == ""
             case Some(uuids) =>
               var pink := "88fdde6c-2aa4-4f78-af02-9f680097cfd6";
               if pink in uuids then publication == pink else uuids == [publication]
    ensures var answer := c.policyAt(index)(s.dispatched[index].n.editorialDesk, publication);
      answer == PolicyError || (answer == Deny && !s.dispatched[index].n.isE2ETest) ==> Receivers(s, index) == {}
  {
    EvaluationMeaning(c.policyAt(index), s.dispatched[index].n, publication);
    forall id | id in s.subs
      ensures Got(s.subs[id].accepted, index) ==> Deliverable(c, index, s.dispatched[index], s.subs[id].profile)
    {
      ReachableHeld(c, s, id, index);
    }
  }

  lemma ReachableHeld(c: Config, s: State, id: string, index: nat)
    requires Reachable(c, s) && id in s.subs && index < |s.dispatched|
    ensures Got(s.subs[id].accepted, index) ==> Deliverable(c, index, s.dispatched[index], s.subs[id].profile)
  {
    ReachableSettled(c, s);
    HeldExactly(c, s, id, index);
  }

  /** A publication list that is empty, or has several entries and not Pink, is such a case. */
  lemma AmbiguousPublicationReachesNobody(c: Config, s: State, index: nat)
    requires Reachable(c, s) && index < |s.dispatched|
    requires s.dispatched[index].n.publication.Some?
    requires |s.dispatched[index].n.publication.value| != 1
    requires "88fdde6c-2aa4-4f78-af02-9f680097cfd6" !in s.dispatched[index].n.publication.value
    ensures Receivers(s, index) == {}
  {
    AmbiguousPublicationAborts(c.policyAt(index), s.dispatched[index].n);
    AbortedReachesNobody(c, s, index);
  }

  // ---------------------------------------------------------------- dates, history, log, heartbeat

  /** Every forwarded notification waited its delay, and history and monitors show its stamp. */
  lemma DelayBound(c: Config, s: State, index: nat)
    requires Reachable(c, s) && index < |s.dispatched|
    ensures var d := s.dispatched[index];
      && d.sentAt + c.delay <= d.stampedAt <= d.receivedAt <= s.now
      && d.n.notificationDate == c.format(d.stampedAt)
      && (index < |s.pushed| ==> s.pushed[index].notificationDate == c.format(d.stampedAt))
      && (forall id, e :: id in s.subs && s.subs[id].profile.kind.Monitor?
                          && e in s.subs[id].accepted && e.index == index ==>
            e.response.notificationDate == c.format(d.stampedAt))
  {
    ReachableInv(c, s);
    forall id, e | id in s.subs && s.subs[id].profile.kind.Monitor? && e in s.subs[id].accepted && e.index == index
      ensures e.response.notificationDate == c.format(s.dispatched[index].stampedAt)
    {
      AcceptedIsOwed(c, s, id, e);
    }
  }

  /** Everything in the history was forwarded, and shows the date stamped on it when its delay was over. */
  lemma HistoryShowsStamps(c: Config, s: State, n: NotificationModel) returns (index: nat)
    requires Reachable(c, s) && n in s.history
    ensures index < |s.dispatched| && s.dispatched[index].n == n
    ensures var d := s.dispatched[index];
      d.sentAt + c.delay <= d.stampedAt <= d.receivedAt && n.notificationDate == c.format(d.stampedAt)
  {
    ReachableInv(c, s);
    assert n in multiset(s.history) && n in multiset(s.pushed);
    index :| 0 <= index < |s.pushed| && s.pushed[index] == n;
    assert s.dispatched[..Recorded(s)][index] == s.dispatched[index];
    DelayBound(c, s, index);
  }

  lemma AcceptedIsOwed(c: Config, s: State, id: string, e: Entry)
    requires Inv(c, s) && id in s.subs && e in s.subs[id].accepted
    ensures IsOwed(c, s.dispatched, s.subs[id].profile, e)
    ensures s.subs[id].joined <= e.index < Upto(s, id)
  {
    var sub := s.subs[id];
    assert DeliveredTo(c, s.dispatched, sub, Upto(s, id));
    ExpectedEntries(c, s.dispatched, sub.profile, sub.joined, Upto(s, id), sub.refused);
  }

  /** The history holds the newest of everything recorded, as a full sort of it would show. */
  lemma HistoryInEveryState(c: Config, s: State, sorted: seq<NotificationModel>)
    requires Reachable(c, s) && IsSortOf(c.parse, sorted, s.pushed)
    ensures KeepsNewest(c.parse, c.historySize, s.pushed, s.history)
    ensures |s.history| <= |sorted|
    ensures forall i :: 0 <= i < |s.history| ==> DateOf(c.parse, s.history[i]) == DateOf(c.parse, sorted[i])
  {
    ReachableInv(c, s);
    NewestIsSortedPrefix(c.parse, c.historySize, s.pushed, s.history, sorted);
  }

  /** The history shows the newest first, and nothing recorded and missing from it is newer. */
  lemma HistoryByDate(c: Config, s: State)
    requires Reachable(c, s)
    ensures forall i, j :: 0 <= i < j < |s.history| ==>
      NotOlder(c.parse(s.history[i].lastModified), c.parse(s.history[j].lastModified))
    ensures forall missing, n :: missing in multiset(s.pushed) - multiset(s.history) && n in s.history ==>
      NotOlder(c.parse(n.lastModified), c.parse(missing.lastModified))
  {
    ReachableInv(c, s);
    NewestByDate(c.parse, c.historySize, s.pushed, s.history);
  }

  /**
   * The log line of a forward counts who was registered, who holds its message, who was eligible
   * and holds none, and who was not eligible; it reports an error exactly when it should.
   */
  lemma LogTellsTruth(c: Config, s: State, index: nat)
    requires Reachable(c, s) && index < |s.log|
    ensures index < |s.dispatched| && Receivers(s, index) <= Audience(s, index)
    ensures var line := s.log[index];
      && line.subscribers == |Audience(s, index)| && line.totals.sent == |Receivers(s, index)|
      && match Evaluate(c.policyAt(index), s.dispatched[index].n)
         case Aborted =>
           && line.totals == Totals(0, 0, 0)
           && (line.failure <==> line.subscribers > 0)
         case Evaluated(hasAccess) =>
           && line.totals.failed == |set id | id in Audience(s, index) && Missed(s, index, hasAccess, id)|
           && line.totals.skipped ==
              |set id | id in Audience(s, index) && !Eligible(s.subs[id].profile, s.dispatched[index].n, hasAccess)|
           && Sum(line.totals) == line.subscribers
           && (line.failure <==> line.subscribers > 0 && line.totals.sent == 0 && line.totals.failed > 0)
  {
    ReachableInv(c, s);
    assert LineOk(c, s, index);
    forall id | id in s.subs
      ensures id in Receivers(s, index) ==> id in Audience(s, index)
    {
      HeldExactly(c, s, id, index);
    }
    var line := s.log[index];
    match Evaluate(c.policyAt(index), s.dispatched[index].n)
    case Aborted =>
      ErrorMeaning(line.subscribers, line.totals, true);
      AbortedReachesNobody(c, s, index);
    case Evaluated(hasAccess) =>
      FatesMeaning(c, s, index, hasAccess);
      ErrorMeaning(line.subscribers, line.totals, false);
  }

  lemma ReachableSettled(c: Config, s: State)
    requires Reachable(c, s)
    ensures Settled(c, s)
  {
    ReachableInv(c, s);
  }

  /**
   * The audience of a forward in progress is the registered subscribers it has visited, hence
   * everyone registered when it ends.
   */
  lemma AudienceIsRegistered(c: Config, s: State)
    requires Reachable(c, s) && s.loop.Forwarding?
    ensures Audience(s, s.loop.pass.index) == s.registered - s.loop.pass.todo
    ensures s.loop.pass.todo == {} ==> Audience(s, s.loop.pass.index) == s.registered
  {
    ReachableSettled(c, s);
    AudienceSoFar(c, s);
    assert s.registered - {} == s.registered;
  }

  /** Once a forward has ended, nothing changes its audience any more. */
  lemma AudienceFixed(c: Config, s: State, labels: seq<Label>, index: nat)
    requires Reachable(c, s) && Valid(c, s, labels) && index < Ended(s)
    ensures Audience(Exec(c, s, labels), index) == Audience(s, index)
  {
    ReachableSettled(c, s);
    AudienceStays(c, s, labels, index);
  }

  lemma {:induction false} AudienceStays(c: Config, s: State, labels: seq<Label>, index: nat)
    requires Settled(c, s) && Valid(c, s, labels) && index < Ended(s)
    ensures Audience(Exec(c, s, labels), index) == Audience(s, index)
    decreases |labels|
  {
    if labels != [] {
      StepKeepsSettled(c, s, labels[0]);
      StepSameAt(c, s, labels[0], index);
      SameAudience(s, Apply(c, s, labels[0]), index);
      AudienceStays(c, Apply(c, s, labels[0]), labels[1..], index);
    }
  }

  lemma SameAudience(s: State, next: State, index: nat)
    requires SameAt(s, next, index)
    ensures Audience(next, index) == Audience(s, index)
  {
  }

  lemma StepSameAt(c: Config, s: State, l: Label, index: nat)
    requires Settled(c, s) && Enabled(c, s, l) && index < Ended(s)
    ensures SameAt(s, Apply(c, s, l), index) && index < Ended(Apply(c, s, l))
  {
    if l.Lock? {
      LockSameAt(c, s, index);
    } else if l.Forward? {
      ForwardSameAt(c, s, l.id, index);
    } else if l.Subscribe? {
      SubscribeSameAt(c, s, l.id, index);
    } else {
      QuietSameAt(c, s, l, index);
    }
  }

  /** While a forward runs nobody joins or leaves, and its counters account for everyone visited. */
  lemma ForwardHoldsRegistry(c: Config, s: State, l: Label)
    requires Reachable(c, s) && s.loop.Forwarding? && Enabled(c, s, l)
    ensures Apply(c, s, l).registered == s.registered
    ensures s.loop.pass.evaluation.Evaluated? ==>
      Sum(s.loop.pass.totals) + |s.loop.pass.todo| == |s.registered|
  {
    ReachableInv(c, s);
  }

  lemma ReachableHealthy(c: Config, s: State, id: string)
    requires Reachable(c, s) && id in s.subs
    ensures Healthy(c.period, s.now, s.subs[id].handler)
  {
    ReachableInv(c, s);
    assert StreamOk(c, s.now, s.subs[id]);
  }

  /**
   * In every state each handler's timer is intact at the loop head and its drain cannot block. The
   * stream opens with a heartbeat; every later one, on the record or about to be written, comes a
   * full period after the timer's last reset, which was not before the preceding message.
   */
  lemma HeartbeatSafety(c: Config, s: State, id: string)
    requires Reachable(c, s) && id in s.subs
    ensures var h := s.subs[id].handler;
      && (h.phase.Selecting? ==> TimerIntact(h.timer))
      && (h.phase.Draining? ==> Enabled(c, s, Drive(id, Drain)))
      && (h.timer.state.Armed? ==> h.timer.state.deadline == h.resetAt + c.period)
      && Spaced(c.period, h.createdAt, h.frames)
    ensures Enabled(c, s, Drive(id, WriteBeat(true))) ==>
      var h, after := s.subs[id].handler, Apply(c, s, Drive(id, WriteBeat(true))).subs[id].handler;
      && s.now >= h.resetAt + c.period && h.resetAt >= Mark(h.createdAt, h.frames)
      && after.frames == h.frames + [Frame(s.now, h.resetAt, Beat)]
  {
    ReachableHealthy(c, s, id);
    var h := s.subs[id].handler;
    if h.phase.Draining? {
      DrainNeverBlocks(c.period, s.now, h);
    }
    if h.phase.Beating? {
      BeatIsDue(c.period, s.now, h);
    }
  }
}
