// What every reachable state of the step system satisfies: who is registered, how a forward
// proceeds, where every notification is, and what the history holds.
module Invariants {

  import opened Basics
  import opened Notifications
  import opened Subscribers
  import opened History
  import opened Dispatching
  import opened Handler
  import opened Protocol

  // ---------------------------------------------------------------- registration

  /** Between its registration and its deferred unregistration. */
  predicate InService(phase: Phase<Entry>) {
    !phase.Subscribing? && !phase.Gone?
  }

  ghost predicate RegistrationOk(s: State) {
    && s.registered <= s.subs.Keys
    && forall id :: id in s.subs ==>
         && s.subs[id].profile.id == id
         && (id in s.registered <==> InService(s.subs[id].handler.phase))
  }

  /** No step of a handler or its timer takes it across its registration. */
  lemma ActStaysInService(period: int, now: int, h: Handler<Entry>, a: Action<Entry>)
    requires CanAct(now, h, a)
    ensures InService(Act(period, now, h, a).phase) <==> InService(h.phase)
  {
  }

  /** The steps that touch a subscription; each of them touches exactly one. */
  predicate Touches(l: Label) {
    l.Forward? || l.Connect? || l.Subscribe? || l.Unsubscribe? || l.Deliver? || l.Drive?
  }

  lemma OthersTouchNothing(c: Config, s: State, l: Label)
    requires Enabled(c, s, l) && !Touches(l)
    ensures Apply(c, s, l).subs == s.subs && Apply(c, s, l).registered == s.registered
    ensures !l.Tick? ==> Apply(c, s, l).now == s.now
  {
  }

  function Touched(l: Label): string
    requires Touches(l)
  {
    match l
    case Forward(id) => id
    case Connect(profile) => profile.id
    case Subscribe(id) => id
    case Unsubscribe(id) => id
    case Deliver(id) => id
    case Drive(id, _) => id
  }

  lemma TouchesOne(c: Config, s: State, l: Label)
    requires Enabled(c, s, l) && Touches(l)
    ensures var next, id := Apply(c, s, l), Touched(l);
      && id in next.subs && next.subs == s.subs[id := next.subs[id]]
      && next.now == s.now && next.dispatched == s.dispatched
  {
  }

  /** Where the handler of the touched subscription is afterwards, and whether it is registered. */
  lemma TouchedRegistration(c: Config, s: State, l: Label)
    requires RegistrationOk(s) && Enabled(c, s, l) && Touches(l)
    ensures var next, id := Apply(c, s, l), Touched(l);
      && id in next.subs && next.subs[id].profile.id == id
      && next.registered == (if l.Subscribe? then s.registered + {id} else if l.Unsubscribe? then s.registered - {id}
                             else s.registered)
      && (id in next.registered <==> InService(next.subs[id].handler.phase))
  {
    if l.Drive? {
      ActStaysInService(c.period, s.now, s.subs[l.id].handler, l.action);
    }
  }

  lemma StepKeepsRegistration(c: Config, s: State, l: Label)
    requires RegistrationOk(s) && Enabled(c, s, l)
    ensures RegistrationOk(Apply(c, s, l))
  {
    if Touches(l) {
      TouchesOne(c, s, l);
      TouchedRegistration(c, s, l);
      OneKeepsRegistration(s, Apply(c, s, l), Touched(l));
    } else {
      OthersTouchNothing(c, s, l);
    }
  }

  lemma OneKeepsRegistration(s: State, next: State, id: string)
    requires RegistrationOk(s) && id in next.subs && next.subs == s.subs[id := next.subs[id]]
    requires next.registered - {id} == s.registered - {id}
    requires next.subs[id].profile.id == id && (id in next.registered <==> InService(next.subs[id].handler.phase))
    ensures RegistrationOk(next)
  {
    forall other | other in next.subs && other != id
      ensures next.subs[other] == s.subs[other] && (other in next.registered <==> other in s.registered)
    {
      assert other in next.registered <==> other in next.registered - {id};
      assert other in s.registered <==> other in s.registered - {id};
    }
    forall other | other in next.registered
      ensures other in next.subs
    {
      assert other == id || other in next.registered - {id};
    }
  }

  // ---------------------------------------------------------------- the forward in progress

  function Sum(t: Totals): nat {
    t.sent + t.failed + t.skipped
  }

  /** The forward has accounted for every subscriber it has visited, and knows the rest. */
  ghost predicate PassOk(c: Config, s: State) {
    match s.loop
    case Forwarding(p) =>
      && |s.dispatched| == p.index + 1
      && p.evaluation == Evaluate(c.policyAt(p.index), s.dispatched[p.index].n)
      && p.todo <= s.registered
      && (p.evaluation.Aborted? ==> p.todo == {} && p.totals == Totals(0, 0, 0))
      && (p.evaluation.Evaluated? ==> Sum(p.totals) + |p.todo| == |s.registered|)
    case Recording => s.dispatched != []
    case _ => true
  }

  lemma StepKeepsPass(c: Config, s: State, l: Label)
    requires RegistrationOk(s) && PassOk(c, s) && Enabled(c, s, l)
    ensures PassOk(c, Apply(c, s, l))
  {
  }

  /** How many forwards have ended, and how many have been recorded. */
  function Ended(s: State): int {
    if s.loop.Forwarding? then |s.dispatched| - 1 else |s.dispatched|
  }

  function Recorded(s: State): int {
    if s.loop.Forwarding? || s.loop.Recording? then |s.dispatched| - 1 else |s.dispatched|
  }

  function Model(d: Dispatch): NotificationModel {
    d.n
  }

  /** Every forward is recorded, in order, before the next one can begin. */
  ghost predicate RecordsOk(s: State) {
    && 0 <= Recorded(s)
    && s.pushed == Map(Model, s.dispatched[..Recorded(s)])
    && |s.log| == Ended(s)
  }

  lemma StepKeepsRecords(c: Config, s: State, l: Label)
    requires PassOk(c, s) && RecordsOk(s) && Enabled(c, s, l)
    ensures RecordsOk(Apply(c, s, l))
  {
  }

  // ---------------------------------------------------------------- conservation

  /** A notification without the date that Send stamps on it. */
  function Undated(n: NotificationModel): NotificationModel {
    n.(notificationDate := "")
  }

  function Waiting(g: Sender): NotificationModel {
    Undated(g.n)
  }

  function Stuck(b: Blocked): NotificationModel {
    Undated(b.n)
  }

  function Begun(d: Dispatch): NotificationModel {
    Undated(d.n)
  }

  function Held(loop: Loop): multiset<NotificationModel> {
    match loop
    case Received(d) => multiset{Undated(d.n)}
    case _ => multiset{}
  }

  /** Nothing sent is lost or duplicated: it waits, or is blocked, or is held by the loop, or its forward began. */
  ghost predicate Conserved(s: State) {
    multiset(Map(Undated, s.sends)) ==
    multiset(Map(Waiting, s.senders)) + multiset(Map(Stuck, s.blocked)) + Held(s.loop)
    + multiset(Map(Begun, s.dispatched))
  }

  /** Only these steps move a notification. */
  predicate Moves(l: Label) {
    l.Send? || l.Wake? || l.Block? || l.Receive? || l.Lock?
  }

  lemma OthersMoveNothing(c: Config, s: State, l: Label)
    requires Enabled(c, s, l) && !Moves(l)
    ensures var next := Apply(c, s, l);
      next.sends == s.sends && next.senders == s.senders && next.blocked == s.blocked && next.dispatched == s.dispatched
      && Held(next.loop) == Held(s.loop)
  {
  }

  lemma StepConserves(c: Config, s: State, l: Label)
    requires Conserved(s) && Enabled(c, s, l)
    ensures Conserved(Apply(c, s, l))
  {
    if !Moves(l) {
      OthersMoveNothing(c, s, l);
    } else {
      MoveConserves(c, s, l);
    }
  }

  lemma MoveConserves(c: Config, s: State, l: Label)
    requires Conserved(s) && Enabled(c, s, l) && Moves(l)
    ensures Conserved(Apply(c, s, l))
  {
    match l
    case Send(n) =>
      MapAppend(Undated, s.sends, n);
      MapAppend(Waiting, s.senders, Sender(n, s.now, None));
    case Wake(i) =>
      assert Map(Waiting, ApplyWake(c, s, i).senders) == Map(Waiting, s.senders);
    case Block(i) =>
      BlockConserves(s, i);
    case Receive =>
      ReceiveConserves(s);
    case Lock =>
      MapAppend(Begun, s.dispatched, s.loop.d);
  }

  lemma BlockConserves(s: State, i: nat)
    requires Conserved(s) && i < |s.senders| && s.senders[i].stampedAt.Some?
    ensures Conserved(ApplyBlock(s, i))
  {
    var g := s.senders[i];
    MapWithout(Waiting, s.senders, i);
    WithoutMultiset(Map(Waiting, s.senders), i);
    MapAppend(Stuck, s.blocked, Blocked(g.n, g.sentAt, g.stampedAt.value));
  }

  lemma ReceiveConserves(s: State)
    requires Conserved(s) && s.loop.Idle? && s.blocked != []
    ensures Conserved(ApplyReceive(s))
  {
    assert Map(Stuck, s.blocked) == [Stuck(s.blocked[0])] + Map(Stuck, s.blocked[1..]);
  }

  // ---------------------------------------------------------------- delay and dates

  predicate Timely(c: Config, now: int, n: NotificationModel, sentAt: int, stampedAt: int) {
    sentAt + c.delay <= stampedAt <= now && n.notificationDate == c.format(stampedAt)
  }

  ghost predicate DatesOk(c: Config, s: State) {
    && (forall i :: 0 <= i < |s.senders| && s.senders[i].stampedAt.Some? ==>
          Timely(c, s.now, s.senders[i].n, s.senders[i].sentAt, s.senders[i].stampedAt.value))
    && (forall i :: 0 <= i < |s.blocked| ==>
          Timely(c, s.now, s.blocked[i].n, s.blocked[i].sentAt, s.blocked[i].stampedAt))
    && (s.loop.Received? ==>
          s.loop.d.receivedAt <= s.now
          && Timely(c, s.loop.d.receivedAt, s.loop.d.n, s.loop.d.sentAt, s.loop.d.stampedAt))
    && (forall i :: 0 <= i < |s.dispatched| ==>
          s.dispatched[i].receivedAt <= s.now
          && Timely(c, s.dispatched[i].receivedAt, s.dispatched[i].n, s.dispatched[i].sentAt,
                    s.dispatched[i].stampedAt))
  }

  lemma StepKeepsDates(c: Config, s: State, l: Label)
    requires DatesOk(c, s) && Enabled(c, s, l)
    ensures DatesOk(c, Apply(c, s, l))
  {
  }

  /** A goroutine that was asleep is awake now. */
  ghost predicate JustWoken(s: State, g: Sender) {
    g.stampedAt == Some(s.now)
    && exists i :: 0 <= i < |s.senders| && s.senders[i].stampedAt.None? && s.senders[i].sentAt == g.sentAt
                   && Undated(s.senders[i].n) == Undated(g.n)
  }

  /** Every time that comes on record is the clock's: of the send, of the waking, of the receipt. */
  lemma TimesAreClockReadings(c: Config, s: State, l: Label)
    requires Enabled(c, s, l)
    ensures var next := Apply(c, s, l);
      && (forall g :: g in next.senders ==> g in s.senders || g == Sender(g.n, s.now, None) || JustWoken(s, g))
      && (forall b :: b in next.blocked ==> b in s.blocked || Sender(b.n, b.sentAt, Some(b.stampedAt)) in s.senders)
      && (next.loop.Received? ==>
            next.loop == s.loop
            || (var d := next.loop.d; d.receivedAt == s.now && Blocked(d.n, d.sentAt, d.stampedAt) in s.blocked))
      && (next.dispatched == s.dispatched
          || (s.loop.Received? && next.dispatched == s.dispatched + [s.loop.d]))
  {
    if l.Wake? {
      assert s.senders[l.i] in s.senders;
    } else if l.Block? {
      assert s.senders[l.i] in s.senders;
    } else if l.Receive? {
      assert s.blocked[0] in s.blocked;
    }
  }

  // ---------------------------------------------------------------- history

  ghost predicate HistoryOk(c: Config, s: State) {
    KeepsNewest(c.parse, c.historySize, s.pushed, s.history)
  }

  lemma StepKeepsHistory(c: Config, s: State, l: Label)
    requires HistoryOk(c, s) && Enabled(c, s, l)
    ensures HistoryOk(c, Apply(c, s, l))
  {
    if l.Record? {
      PushKeepsNewest(c.parse, c.historySize, s.pushed, s.history, LastDispatch(s).n, Apply(c, s, l).history);
    }
  }

  // ---------------------------------------------------------------- buffers and handlers

  /** Everything accepted is, in order, written, then at most one in hand, then buffered. */
  ghost predicate StreamOk(c: Config, now: int, sub: Subscription) {
    && Healthy(c.period, now, sub.handler)
    && |sub.buffer| <= NOTIFICATION_BUFFER
    && sub.accepted == Taken(sub.handler) + sub.buffer
  }

  ghost predicate StreamsOk(c: Config, s: State) {
    forall id :: id in s.subs ==> StreamOk(c, s.now, s.subs[id])
  }

  lemma DriveKeepsStream(c: Config, now: int, sub: Subscription, a: Action<Entry>)
    requires StreamOk(c, now, sub) && !a.Take? && CanAct(now, sub.handler, a)
    ensures StreamOk(c, now, sub.(handler := Act(c.period, now, sub.handler, a)))
  {
    ActKeepsHealthy(c.period, now, sub.handler, a);
    ActTakes(c.period, now, sub.handler, a);
  }

  lemma DeliverKeepsStream(c: Config, now: int, sub: Subscription)
    requires StreamOk(c, now, sub) && sub.buffer != [] && sub.handler.phase.Selecting?
    ensures StreamOk(c, now, sub.(buffer := sub.buffer[1..],
                                  handler := Act(c.period, now, sub.handler, Take(sub.buffer[0]))))
  {
  }

  lemma OfferKeepsStream(c: Config, now: int, sub: Subscription, index: nat, n: NotificationModel, hasAccess: bool)
    requires StreamOk(c, now, sub)
    ensures StreamOk(c, now, Offered(index, n, hasAccess, sub, Fate(c, n, hasAccess, sub)))
  {
  }

  /** Registering and unregistering move the handler along without touching its stream. */
  lemma PhaseKeepsStream(c: Config, now: int, sub: Subscription, phase: Phase<Entry>, joined: nat, left: nat)
    requires StreamOk(c, now, sub)
    requires (sub.handler.phase.Subscribing? && phase == Starting)
             || (sub.handler.phase.Closing? && phase == Gone(sub.handler.phase.lost))
    ensures StreamOk(c, now, sub.(handler := sub.handler.(phase := phase), joined := joined, left := left))
  {
  }

  lemma TimeKeepsStreams(c: Config, s: State, dt: nat)
    requires StreamsOk(c, s)
    ensures StreamsOk(c, s.(now := s.now + dt))
  {
    forall id | id in s.subs
      ensures StreamOk(c, s.now + dt, s.subs[id])
    {
      TimeKeepsHealthy(c.period, s.now, s.now + dt, s.subs[id].handler);
    }
  }

  lemma TouchedStream(c: Config, s: State, l: Label)
    requires Enabled(c, s, l) && Touches(l)
    requires Touched(l) in s.subs ==> StreamOk(c, s.now, s.subs[Touched(l)])
    ensures Touched(l) in Apply(c, s, l).subs && StreamOk(c, s.now, Apply(c, s, l).subs[Touched(l)])
  {
    match l
    case Connect(_) =>
      FreshIsHealthy<Entry>(c.period, s.now);
    case Forward(id) =>
      OfferKeepsStream(c, s.now, s.subs[id], s.loop.pass.index, LastDispatch(s).n, s.loop.pass.evaluation.hasAccess);
    case Subscribe(id) =>
      PhaseKeepsStream(c, s.now, s.subs[id], Starting, |s.dispatched|, s.subs[id].left);
    case Unsubscribe(id) =>
      PhaseKeepsStream(c, s.now, s.subs[id], Gone(s.subs[id].handler.phase.lost), s.subs[id].joined, |s.dispatched|);
    case Deliver(id) =>
      DeliverKeepsStream(c, s.now, s.subs[id]);
    case Drive(id, action) =>
      DriveKeepsStream(c, s.now, s.subs[id], action);
  }

  lemma OneKeepsStreams(c: Config, s: State, next: State, id: string)
    requires StreamsOk(c, s) && next.now == s.now
    requires id in next.subs && next.subs == s.subs[id := next.subs[id]] && StreamOk(c, s.now, next.subs[id])
    ensures StreamsOk(c, next)
  {
  }

  lemma SameKeepsStreams(c: Config, s: State, next: State)
    requires StreamsOk(c, s) && next.now == s.now && next.subs == s.subs
    ensures StreamsOk(c, next)
  {
  }

  lemma StepKeepsStreams(c: Config, s: State, l: Label)
    requires StreamsOk(c, s) && Enabled(c, s, l)
    ensures StreamsOk(c, Apply(c, s, l))
  {
    if l.Tick? {
      TimeKeepsStreams(c, s, l.dt);
    } else if Touches(l) {
      TouchesOne(c, s, l);
      TouchedStream(c, s, l);
      OneKeepsStreams(c, s, Apply(c, s, l), Touched(l));
    } else {
      OthersTouchNothing(c, s, l);
      SameKeepsStreams(c, s, Apply(c, s, l));
    }
  }
}
