// Handlers get to read: what is buffered can be written, heartbeats can come on time, and a
// notification can make it from Send to a stream.
module Reading {

  import opened Basics
  import opened Text
  import opened Notifications
  import opened Subscribers
  import opened Dispatching
  import opened Handler
  import opened Protocol
  import opened Invariants
  import opened Delivery
  import opened Runs
  import opened Progress
  import opened SendOrder

  // ---------------------------------------------------------------- one handler's own steps

  /** A step of this subscriber's handler or timer, or the passing of time. */
  predicate IsOwn(l: Label, id: string) {
    l.Tick? || ((l.Deliver? || l.Drive?) && l.id == id)
  }

  predicate AreOwn(labels: seq<Label>, id: string) {
    forall i :: 0 <= i < |labels| ==> IsOwn(labels[i], id)
  }

  /** Registered and not about to unregister. */
  predicate Serving(phase: Phase<Entry>) {
    InService(phase) && !phase.Closing?
  }

  /** The step with which a handler gets on with what it is doing, writes succeeding. */
  function NextOwn(id: string, phase: Phase<Entry>): Label
    requires Serving(phase)
  {
    match phase
    case Starting => Drive(id, Listen)
    case Greeting => Drive(id, Greet(true))
    case Selecting => Deliver(id)
    case Writing(_) => Drive(id, Write(true))
    case StoppingTimer => Drive(id, StopTimer)
    case Draining => Drive(id, Drain)
    case Rearming => Drive(id, Rearm)
    case Beating => Drive(id, WriteBeat(true))
    case RearmingBeat => Drive(id, RearmBeat)
  }

  /** How many such steps are left until the handler is at the head of its loop. */
  function PhaseSteps(phase: Phase<Entry>): nat
    requires Serving(phase)
  {
    match phase
    case Starting => 2
    case Greeting => 1
    case Selecting => 0
    case Writing(_) => 4
    case StoppingTimer => 3
    case Draining => 2
    case Rearming => 1
    case Beating => 2
    case RearmingBeat => 1
  }

  /** And until everything buffered is written. */
  function StepsToRead(sub: Subscription): nat
    requires Serving(sub.handler.phase)
  {
    5 * |sub.buffer| + PhaseSteps(sub.handler.phase)
  }

  predicate AllRead(sub: Subscription) {
    sub.handler.phase.Selecting? && sub.buffer == []
  }

  /** The handler's part of such a step. */
  lemma HandlerGoesOn(c: Config, now: int, h: Handler<Entry>, a: Action<Entry>)
    requires Healthy(c.period, now, h) && Serving(h.phase) && !h.phase.Selecting?
    requires NextOwn("", h.phase) == Drive("", a)
    ensures CanAct(now, h, a) && !a.Take?
    ensures var after := Act(c.period, now, h, a);
      && Serving(after.phase)
      && PhaseSteps(after.phase) < PhaseSteps(h.phase)
  {
  }

  /** Until everything is read there is such a step, and it brings that nearer. */
  lemma ReadingGoesOn(c: Config, s: State, id: string)
    requires id in s.subs && Serving(s.subs[id].handler.phase) && Healthy(c.period, s.now, s.subs[id].handler)
    requires !AllRead(s.subs[id])
    ensures Enabled(c, s, NextOwn(id, s.subs[id].handler.phase))
    ensures var next := Apply(c, s, NextOwn(id, s.subs[id].handler.phase));
      && id in next.subs && next == s.(subs := s.subs[id := next.subs[id]])
      && next.subs[id].accepted == s.subs[id].accepted && next.subs[id].profile == s.subs[id].profile
      && Serving(next.subs[id].handler.phase) && StepsToRead(next.subs[id]) < StepsToRead(s.subs[id])
  {
    var h := s.subs[id].handler;
    if !h.phase.Selecting? {
      HandlerGoesOn(c, s.now, h, NextOwn("", h.phase).action);
    }
  }

  lemma OnlyOneChanges(s: State, next: State, t: State, id: string)
    requires id in next.subs && next == s.(subs := s.subs[id := next.subs[id]])
    requires id in t.subs && t == next.(subs := next.subs[id := t.subs[id]])
    ensures t == s.(subs := s.subs[id := t.subs[id]])
  {
  }

  lemma PrependStep(c: Config, s: State, l: Label, rest: seq<Label>)
    requires Enabled(c, s, l) && Valid(c, Apply(c, s, l), rest)
    ensures Valid(c, s, [l] + rest) && Exec(c, s, [l] + rest) == Exec(c, Apply(c, s, l), rest)
  {
    assert ([l] + rest)[1..] == rest;
  }

  lemma {:induction false} RunToRead(c: Config, s: State, id: string) returns (labels: seq<Label>)
    requires Reachable(c, s) && id in s.subs && Serving(s.subs[id].handler.phase)
    ensures AreOwn(labels, id) && Valid(c, s, labels)
    ensures var t := Exec(c, s, labels);
      && id in t.subs && t == s.(subs := s.subs[id := t.subs[id]])
      && t.subs[id].accepted == s.subs[id].accepted && t.subs[id].profile == s.subs[id].profile && AllRead(t.subs[id])
    decreases StepsToRead(s.subs[id])
  {
    if AllRead(s.subs[id]) {
      labels := [];
      assert s.subs == s.subs[id := s.subs[id]];
    } else {
      ReachableHealthy(c, s, id);
      ReadingGoesOn(c, s, id);
      var l := NextOwn(id, s.subs[id].handler.phase);
      var next := Apply(c, s, l);
      ReachableStep(c, s, l);
      var rest := RunToRead(c, next, id);
      OnlyOneChanges(s, next, Exec(c, next, rest), id);
      PrependStep(c, s, l, rest);
      labels := [l] + rest;
    }
  }

  /**
   * From every reachable state, and wherever its handler is, a subscriber that is being served can
   * read all it was given by its own steps alone: then its buffer is empty, its stream shows
   * everything ever put into it, and nothing else has changed.
   */
  lemma EverythingCanBeRead(c: Config, s: State, id: string) returns (labels: seq<Label>)
    requires Reachable(c, s) && id in s.subs && Serving(s.subs[id].handler.phase)
    ensures AreOwn(labels, id) && Valid(c, s, labels)
    ensures var t := Exec(c, s, labels);
      && id in t.subs && t == s.(subs := s.subs[id := t.subs[id]])
      && t.subs[id].buffer == [] && NotesOf(t.subs[id].handler.frames) == s.subs[id].accepted
      && t.subs[id].handler.phase.Selecting? && t.subs[id].profile == s.subs[id].profile
  {
    labels := RunToRead(c, s, id);
    var t := Exec(c, s, labels);
    ReachableRun(c, s, labels);
    ReachableShape(c, t, id);
    var shown := NotesOf(t.subs[id].handler.frames);
    assert InHand(t.subs[id].handler) + t.subs[id].buffer == [];
    assert shown + [] == shown;
  }

  // ---------------------------------------------------------------- heartbeats on time, and leaving

  lemma AppendOwn(c: Config, s: State, labels: seq<Label>, l: Label, id: string)
    requires Valid(c, s, labels) && AreOwn(labels, id) && Enabled(c, Exec(c, s, labels), l) && IsOwn(l, id)
    ensures Valid(c, s, labels + [l]) && AreOwn(labels + [l], id)
    ensures Exec(c, s, labels + [l]) == Apply(c, Exec(c, s, labels), l)
  {
    ExecAppend(c, s, labels, l);
  }

  /** Time passes until the handler's timer has gone off, and no longer. */
  lemma RunToExpiry(c: Config, s: State, id: string) returns (labels: seq<Label>)
    requires Reachable(c, s) && id in s.subs && s.subs[id].handler.phase.Selecting?
    ensures AreOwn(labels, id) && Valid(c, s, labels)
    ensures var t, h := Exec(c, s, labels), s.subs[id].handler;
      && id in t.subs && t.now == Max(s.now, h.resetAt + c.period)
      && t.subs[id].handler == h.(timer := Timer(Expired, true))
  {
    ReachableHealthy(c, s, id);
    var h := s.subs[id].handler;
    if h.timer.state.Armed? {
      var wait := Tick(if h.timer.state.deadline > s.now then h.timer.state.deadline - s.now else 0);
      OneStep(c, s, wait);
      AppendOwn(c, s, [wait], Drive(id, Fire), id);
      labels := [wait] + [Drive(id, Fire)];
    } else {
      labels := [];
    }
  }

  /** At the loop head a heartbeat can be written one period after the timer's last reset, or now. */
  lemma HeartbeatOnTime(c: Config, s: State, id: string) returns (labels: seq<Label>)
    requires Reachable(c, s) && id in s.subs && s.subs[id].handler.phase.Selecting?
    ensures AreOwn(labels, id) && Valid(c, s, labels)
    ensures var t, h := Exec(c, s, labels), s.subs[id].handler;
      id in t.subs && t.subs[id].handler.frames ==
                      h.frames + [Frame(Max(s.now, h.resetAt + c.period), h.resetAt, Beat)]
  {
    var expiry := RunToExpiry(c, s, id);
    AppendOwn(c, s, expiry, Drive(id, TakeToken), id);
    AppendOwn(c, s, expiry + [Drive(id, TakeToken)], Drive(id, WriteBeat(true)), id);
    labels := expiry + [Drive(id, TakeToken)] + [Drive(id, WriteBeat(true))];
  }

  /** Whoever is being served can disconnect, and then its subscriber alone is taken away. */
  lemma AnyoneCanLeave(c: Config, s: State, id: string) returns (t: State)
    requires Reachable(c, s) && id in s.subs && Serving(s.subs[id].handler.phase)
    ensures Reachable(c, t) && t.registered == s.registered - {id}
    ensures id in t.subs && t.subs[id].handler.phase.Gone?
  {
    var labels := RunToRead(c, s, id);
    ReachableRun(c, s, labels);
    t := ReturnedHandlerLeaves(c, Exec(c, s, labels), id, Cancel);
  }

  /** Every write can fail, and the handler then returns. */
  lemma EveryWriteMayFail(c: Config, s: State, id: string)
    requires id in s.subs
    ensures s.subs[id].handler.phase.Greeting? ==> Returns(c, s, id, Greet(false))
    ensures s.subs[id].handler.phase.Writing? ==> Returns(c, s, id, Write(false))
    ensures s.subs[id].handler.phase.Beating? ==> Returns(c, s, id, WriteBeat(false))
    ensures s.subs[id].handler.phase.Selecting? ==> Returns(c, s, id, Cancel)
  {
  }

  // ---------------------------------------------------------------- from Send to the stream

  lemma {:induction false} OwnSendNothing(labels: seq<Label>, id: string)
    requires AreOwn(labels, id)
    ensures SendsNothing(labels)
  {
    forall i | 0 <= i < |labels|
      ensures !labels[i].Send?
    {
      assert IsOwn(labels[i], id);
    }
  }

  lemma LeadsOn(c: Config, origin: State, s: State, labels: seq<Label>)
    requires LeadsTo(c, origin, s) && Valid(c, s, labels) && SendsNothing(labels)
    ensures LeadsTo(c, origin, Exec(c, s, labels))
  {
    var before :| SendsNothing(before) && Valid(c, origin, before) && s == Exec(c, origin, before);
    ExecConcat(c, origin, before, labels);
    assert SendsNothing(before + labels);
  }

  /** The state with one subscriber, registered from the start, and one notification just sent. */
  predicate JustSent(s: State, profile: Profile, n: NotificationModel) {
    && s.loop.Idle? && s.dispatched == [] && s.blocked == [] && s.senders == [Sender(n, s.now, None)]
    && profile.id in s.subs && profile.id in s.registered && s.subs[profile.id].profile == profile
    && s.subs[profile.id].joined == 0 && Serving(s.subs[profile.id].handler.phase)
  }

  lemma FirstForward(c: Config, s: State, profile: Profile, n: NotificationModel) returns (t: State)
    requires Reachable(c, s) && JustSent(s, profile, n)
    ensures Reachable(c, t) && LeadsTo(c, s, t) && t.loop.Idle?
    ensures |t.dispatched| == 1 && Undated(t.dispatched[0].n) == Undated(n)
    ensures profile.id in t.subs && profile.id in t.registered && OnlyGiven(s.subs[profile.id], t.subs[profile.id])
  {
    StayHere(c, s);
    var u := RunToNext(c, s, s, 0);
    t := RunToIdle(c, s, u);
    assert OnlyGiven(s.subs[profile.id], u.subs[profile.id]) && OnlyGiven(u.subs[profile.id], t.subs[profile.id]);
    assert Committed(s) == [] && Pending(s) == [Undated(n)];
    assert Forwarded(t) == Map(Begun, t.dispatched) + [] == [Undated(n)];
    assert Forwarded(t)[0] == Begun(t.dispatched[0]);
  }

  /** The first forward finds every buffer empty. */
  lemma FirstIsNotRefused(c: Config, s: State, id: string)
    requires Reachable(c, s) && id in s.subs && |s.dispatched| == 1
    ensures 0 !in s.subs[id].refused
  {
    if 0 in s.subs[id].refused {
      RefusedOnlyAfterSixteen(c, s, id, 0);
    }
  }

  /** The publication the policy is asked about, if the notification has one that is clear. */
  predicate AsksAbout(n: NotificationModel, publication: string) {
    match n.publication
    case None => publication == ""
    case Some(uuids) =>
      var pink := "88fdde6c-2aa4-4f78-af02-9f680097cfd6";
      if pink in uuids then publication == pink else uuids == [publication]
  }

  /** The policy answers, and the subscriber is one for whom this notification is meant. */
  ghost predicate IsMeantFor(c: Config, profile: Profile, n: NotificationModel, publication: string) {
    var answer := c.policyAt(0)(n.editorialDesk, publication);
    && AsksAbout(n, publication) && answer != PolicyError
    && (if n.isE2ETest then profile.kind == Monitor
        else
          && answer == Allow
          && (exists i :: 0 <= i < |profile.subTypes| && profile.subTypes[i] == n.subscriptionType)
          && (n.eventType == RELATED_CONTENT_TYPE ==> profile.options.receiveInternalUnstable))
  }

  lemma MeantIsOwed(c: Config, profile: Profile, n: NotificationModel, publication: string, d: Dispatch)
    requires IsMeantFor(c, profile, n, publication) && Undated(d.n) == Undated(n)
    requires forall r :: c.encode(r).Some?
    ensures Deliverable(c, 0, d, profile)
  {
    EvaluationMeaning(c.policyAt(0), d.n, publication);
    if !n.isE2ETest {
      var i :| 0 <= i < |profile.subTypes| && profile.subTypes[i] == n.subscriptionType;
      assert ToLower(profile.subTypes[i]) == ToLower(d.n.subscriptionType);
    }
  }

  /**
   * A notification gets through: sent to a dispatcher with a registered subscriber it is meant for,
   * it can be forwarded and written to that subscriber's stream.
   */
  lemma NotificationGetsThrough(c: Config, s: State, profile: Profile, n: NotificationModel, publication: string)
    returns (t: State)
    requires Reachable(c, s) && JustSent(s, profile, n)
    requires IsMeantFor(c, profile, n, publication) && forall r :: c.encode(r).Some?
    ensures Reachable(c, t) && LeadsTo(c, s, t)
    ensures |t.dispatched| == 1 && Undated(t.dispatched[0].n) == Undated(n)
    ensures profile.id in t.subs && t.subs[profile.id].profile == profile
    ensures Got(NotesOf(t.subs[profile.id].handler.frames), 0)
  {
    var u := FirstForward(c, s, profile, n);
    var id := profile.id;
    FirstIsNotRefused(c, u, id);
    ExactDelivery(c, u, id, 0);
    MeantIsOwed(c, profile, n, publication, u.dispatched[0]);
    var labels := EverythingCanBeRead(c, u, id);
    OwnSendNothing(labels, id);
    LeadsOn(c, s, u, labels);
    ReachableRun(c, u, labels);
    t := Exec(c, u, labels);
  }

  function FirstSteps(profile: Profile, n: NotificationModel): seq<Label> {
    [Connect(profile)] + [Subscribe(profile.id)] + [Send(n)]
  }

  /** Such a state can be had for every subscriber and every notification. */
  lemma OneSubscriberOneSend(c: Config, profile: Profile, n: NotificationModel)
    ensures Valid(c, INITIAL, FirstSteps(profile, n)) && JustSent(Exec(c, INITIAL, FirstSteps(profile, n)), profile, n)
  {
    OneStep(c, INITIAL, Connect(profile));
    ExecAppend(c, INITIAL, [Connect(profile)], Subscribe(profile.id));
    ExecAppend(c, INITIAL, [Connect(profile)] + [Subscribe(profile.id)], Send(n));
  }
}
