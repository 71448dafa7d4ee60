// The dispatcher makes progress: how long a forward takes, and how handlers get to leave.
module Progress {

  import opened Basics
  import opened Notifications
  import opened Subscribers
  import opened Dispatching
  import opened Handler
  import opened Protocol
  import opened Invariants
  import opened Delivery
  import opened Runs

  // ---------------------------------------------------------------- a forward ends

  /** The loop's own steps up to the end of its turn, if nobody joins or leaves before it has the lock. */
  ghost function StepsLeft(s: State): nat {
    match s.loop
    case Received(_) => |s.registered| + 3
    case Forwarding(p) => |p.todo| + 2
    case Recording => 1
    case _ => 0
  }

  function LoopSteps(labels: seq<Label>): nat {
    if labels == [] then 0 else (if IsLoopLabel(labels[0]) then 1 else 0) + LoopSteps(labels[1..])
  }

  /** Every step of the loop brings the end of its turn nearer, by one once it has the lock. */
  lemma LoopStepCounts(c: Config, s: State, l: Label)
    requires RegistrationOk(s) && PassOk(c, s) && Enabled(c, s, l) && IsLoopLabel(l)
    ensures StepsLeft(Apply(c, s, l)) < StepsLeft(s)
    ensures !l.Lock? ==> StepsLeft(Apply(c, s, l)) == StepsLeft(s) - 1
  {
  }

  /** No other step moves the end of a forward away. */
  lemma OthersLeaveCount(c: Config, s: State, l: Label)
    requires Enabled(c, s, l) && !IsLoopLabel(l) && !l.Receive? && !s.loop.Received?
    ensures StepsLeft(Apply(c, s, l)) == StepsLeft(s) && !Apply(c, s, l).loop.Received?
  {
  }

  ghost predicate ReceivesNothing(labels: seq<Label>) {
    forall i :: 0 <= i < |labels| ==> !labels[i].Receive?
  }

  lemma {:induction false} CountDown(c: Config, s: State, labels: seq<Label>)
    requires Settled(c, s) && !s.loop.Received? && Valid(c, s, labels) && ReceivesNothing(labels)
    ensures LoopSteps(labels) + StepsLeft(Exec(c, s, labels)) == StepsLeft(s)
    ensures !Exec(c, s, labels).loop.Received?
    decreases |labels|
  {
    if labels != [] {
      StepKeepsSettled(c, s, labels[0]);
      if IsLoopLabel(labels[0]) {
        LoopStepCounts(c, s, labels[0]);
      } else {
        OthersLeaveCount(c, s, labels[0]);
      }
      assert labels[0] == labels[0] && !labels[0].Receive?;
      CountDown(c, Apply(c, s, labels[0]), labels[1..]);
    }
  }

  lemma NothingLeft(s: State)
    ensures StepsLeft(s) == 0 <==> s.loop.Idle? || s.loop.Stopped?
  {
  }

  lemma LockedSteps(c: Config, s: State)
    requires Enabled(c, s, Lock)
    ensures var next := Apply(c, s, Lock); !next.loop.Received? && StepsLeft(next) == 2 + Visitors(c, s)
  {
  }

  /** How many subscribers the received notification will be offered to. */
  ghost function Visitors(c: Config, s: State): nat
    requires s.loop.Received?
  {
    if Evaluate(c.policyAt(|s.dispatched|), s.loop.d.n).Aborted? then 0 else |s.registered|
  }

  /**
   * Whatever comes in between, and whatever the buffers hold, a forward and its record take the lock,
   * one step per subscriber registered at that moment, and two more: no fewer and no more.
   */
  lemma ForwardEnds(c: Config, s: State, labels: seq<Label>)
    requires Reachable(c, s) && s.loop.Received?
    requires Valid(c, Apply(c, s, Lock), labels) && ReceivesNothing(labels)
    ensures var after := Exec(c, Apply(c, s, Lock), labels);
      && LoopSteps(labels) <= Visitors(c, s) + 2
      && (after.loop.Idle? || after.loop.Stopped? <==> LoopSteps(labels) == Visitors(c, s) + 2)
  {
    ReachableSettled(c, s);
    StepKeepsSettled(c, s, Lock);
    LockedSteps(c, s);
    CountDown(c, Apply(c, s, Lock), labels);
    NothingLeft(Exec(c, Apply(c, s, Lock), labels));
  }

  // ---------------------------------------------------------------- continuations that send nothing

  ghost predicate SendsNothing(labels: seq<Label>) {
    forall i :: 0 <= i < |labels| ==> !labels[i].Send?
  }

  /** The second state can be reached from the first without another send. */
  ghost predicate LeadsTo(c: Config, s: State, t: State) {
    exists labels :: SendsNothing(labels) && Valid(c, s, labels) && t == Exec(c, s, labels)
  }

  lemma StayHere(c: Config, s: State)
    ensures LeadsTo(c, s, s)
  {
    assert SendsNothing([]) && Valid(c, s, []) && s == Exec(c, s, []);
  }

  lemma GoOn(c: Config, s: State, t: State, l: Label)
    requires Reachable(c, t) && LeadsTo(c, s, t) && Enabled(c, t, l) && !l.Send?
    ensures Reachable(c, Apply(c, t, l)) && LeadsTo(c, s, Apply(c, t, l))
  {
    ReachableStep(c, t, l);
    var labels :| SendsNothing(labels) && Valid(c, s, labels) && t == Exec(c, s, labels);
    ExecAppend(c, s, labels, l);
    assert SendsNothing(labels + [l]);
  }

  function HeldNotes(loop: Loop): seq<NotificationModel> {
    match loop
    case Received(d) => [Undated(d.n)]
    case _ => []
  }

  /** The notifications in the order they were, or are being, forwarded. */
  function Forwarded(s: State): seq<NotificationModel> {
    Map(Begun, s.dispatched) + HeldNotes(s.loop)
  }

  /** Nothing about a subscription has changed but what it has been given. */
  ghost predicate OnlyGiven(sub: Subscription, after: Subscription) {
    after.handler == sub.handler && after.profile == sub.profile && after.joined == sub.joined
  }

  ghost predicate SubsKept(s: State, next: State) {
    forall id :: id in s.subs ==> id in next.subs && OnlyGiven(s.subs[id], next.subs[id])
  }

  lemma LoopStepFrame(c: Config, s: State, l: Label)
    requires Enabled(c, s, l) && IsLoopLabel(l)
    ensures var next := Apply(c, s, l);
      && next.senders == s.senders && next.blocked == s.blocked && next.sends == s.sends
      && next.registered == s.registered
      && Forwarded(next) == Forwarded(s) && !next.loop.Stopped? && SubsKept(s, next)
  {
    if l.Lock? {
      MapAppend(Begun, s.dispatched, s.loop.d);
    }
  }

  /** A busy loop can always be run to the end of its turn, with nothing else happening. */
  lemma {:induction false} RunToIdle(c: Config, origin: State, s: State) returns (t: State)
    requires Reachable(c, s) && LeadsTo(c, origin, s) && !s.loop.Stopped?
    ensures Reachable(c, t) && LeadsTo(c, origin, t) && t.loop.Idle?
    ensures t.senders == s.senders && t.blocked == s.blocked && t.sends == s.sends && t.registered == s.registered
    ensures Forwarded(t) == Forwarded(s) && SubsKept(s, t)
    decreases StepsLeft(s)
  {
    if s.loop.Idle? {
      t := s;
    } else {
      DispatcherNeverStuck(c, s);
      var l :| IsLoopLabel(l) && Enabled(c, s, l);
      ReachablePass(c, s);
      LoopStepCounts(c, s, l);
      LoopStepFrame(c, s, l);
      GoOn(c, origin, s, l);
      t := RunToIdle(c, origin, Apply(c, s, l));
    }
  }

  // ---------------------------------------------------------------- leaving

  /** With this step the handler returns. */
  ghost predicate Returns(c: Config, s: State, id: string, a: Action<Entry>) {
    && Enabled(c, s, Drive(id, a))
    && !s.subs[id].handler.phase.Closing?
    && Act(c.period, s.now, s.subs[id].handler, a).phase.Closing?
  }

  /** A handler about to return has its subscriber registered, and the step leaves only that to undo. */
  lemma ExitCloses(c: Config, s: State, id: string, a: Action<Entry>)
    requires RegistrationOk(s) && Returns(c, s, id, a)
    ensures a == Greet(false) || a == Write(false) || a == WriteBeat(false) || a == Cancel
    ensures var next := Apply(c, s, Drive(id, a));
      && id in s.registered && next.registered == s.registered && next.loop == s.loop
      && id in next.subs && next.subs[id].handler.phase.Closing?
  {
    ExitPaths(c.period, s.now, s.subs[id].handler, a);
  }

  /**
   * On every exit path, and whatever the loop was doing, the handler's own subscriber can be taken
   * away after finitely many more steps, and nobody else with it.
   */
  lemma ReturnedHandlerLeaves(c: Config, s: State, id: string, a: Action<Entry>) returns (t: State)
    requires Reachable(c, s) && Returns(c, s, id, a)
    ensures Reachable(c, t) && LeadsTo(c, s, t)
    ensures id in s.registered && t.registered == s.registered - {id}
    ensures id in t.subs && t.subs[id].handler.phase.Gone?
  {
    ReachablePass(c, s);
    ExitCloses(c, s, id, a);
    StayHere(c, s);
    GoOn(c, s, s, Drive(id, a));
    var u := Apply(c, s, Drive(id, a));
    if u.loop.Forwarding? {
      u := RunToIdle(c, s, u);
    }
    GoOn(c, s, u, Unsubscribe(id));
    t := ApplyUnsubscribe(u, id);
  }

  // ---------------------------------------------------------------- joining and stopping

  /** A connected newcomer registers in one step of its own whenever no forward holds the lock. */
  lemma CanRegister(c: Config, s: State, id: string)
    requires Reachable(c, s) && id in s.subs && s.subs[id].handler.phase.Subscribing? && !s.loop.Forwarding?
    ensures Valid(c, s, [Subscribe(id)])
    ensures var t := Exec(c, s, [Subscribe(id)]);
      && t.subs.Keys == s.subs.Keys && t.registered == s.registered + {id} && t.subs[id].handler.phase.Starting?
      && t.subs[id].joined == |s.dispatched| && t.subs[id].accepted == [] && t.subs[id].buffer == []
      && forall other :: other in s.subs && other != id ==> t.subs[other] == s.subs[other]
  {
    OneStep(c, s, Subscribe(id));
    ReachableBlank(c, s, id);
  }

  lemma ReachableBlank(c: Config, s: State, id: string)
    requires Reachable(c, s) && id in s.subs && s.subs[id].handler.phase.Subscribing?
    ensures s.subs[id].accepted == [] && s.subs[id].buffer == []
  {
    ReachableSettled(c, s);
    assert Blank(s.subs[id]);
    ReachableShape(c, s, id);
  }

  /** Whatever the loop is doing, a newcomer can connect and register, and nobody leaves for it. */
  lemma NewcomerRegisters(c: Config, s: State, profile: Profile) returns (t: State)
    requires Reachable(c, s) && profile.id !in s.subs
    ensures Reachable(c, t) && LeadsTo(c, s, t)
    ensures t.registered == s.registered + {profile.id}
    ensures profile.id in t.subs && t.subs[profile.id].profile == profile
    ensures t.subs[profile.id].accepted == [] && t.subs[profile.id].handler.phase.Starting?
  {
    StayHere(c, s);
    GoOn(c, s, s, Connect(profile));
    var u := ApplyConnect(s, profile);
    if u.loop.Forwarding? {
      u := RunToIdle(c, s, u);
    }
    CanRegister(c, u, profile.id);
    OneStep(c, u, Subscribe(profile.id));
    GoOn(c, s, u, Subscribe(profile.id));
    t := ApplySubscribe(u, profile.id);
  }

  /** Stop takes effect: the loop ends its turn, dropping nothing it has begun, and stops. */
  lemma StopTakesEffect(c: Config, s: State) returns (t: State)
    requires Reachable(c, s) && !s.loop.Stopped?
    ensures Reachable(c, t) && LeadsTo(c, s, t) && t.loop.Stopped?
    ensures Forwarded(t) == Forwarded(s) && t.sends == s.sends && t.registered == s.registered
  {
    StayHere(c, s);
    var u := RunToIdle(c, s, s);
    GoOn(c, s, u, Stop);
    t := Apply(c, u, Stop);
  }
}
