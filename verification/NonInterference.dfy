// Two runs side by side: what some subscribers cannot tell apart, and cannot even rule out.
module NonInterference {

  import opened Basics
  import opened Notifications
  import opened Subscribers
  import opened Dispatching
  import opened History
  import opened Handler
  import opened Protocol
  import opened Invariants
  import opened Runs

  /** What two runs may differ in: a part of the notifications, or how one subscriber reads its own. */
  datatype Secret = CreateVersusUpdate | MonitoringFields | ReadingOf(id: string)

  /** A notification with the secret part masked. */
  function Public(secret: Secret, n: NotificationModel): NotificationModel {
    match secret
    case CreateVersusUpdate =>
      if n.eventType == CONTENT_CREATE_TYPE then n.(eventType := CONTENT_UPDATE_TYPE) else n
    case ReadingOf(_) => n
    case MonitoringFields => n.(publishReference := "", lastModified := "", notificationDate := "")
  }

  /** The subscribers that must not be able to tell the runs apart. */
  predicate Outsider(secret: Secret, profile: Profile) {
    match secret
    case CreateVersusUpdate => !profile.options.receiveAdvancedNotifications
    case MonitoringFields => profile.kind.Standard?
    case ReadingOf(id) => profile.id != id
  }

  /** The filters do not look at the secret, and an outsider's message does not show it. */
  lemma SameTreatment(secret: Secret, policy: Policy, profile: Profile, a: NotificationModel,
                      b: NotificationModel, hasAccess: bool)
    requires Public(secret, a) == Public(secret, b)
    ensures Evaluate(policy, a) == Evaluate(policy, b)
    ensures Eligible(profile, a, hasAccess) <==> Eligible(profile, b, hasAccess)
    ensures Outsider(secret, profile) ==> ResponseFor(profile, a) == ResponseFor(profile, b)
  {
  }

  /** Two runs take the same step: sends may differ in the secret, sorts in the order they chose. */
  ghost predicate SameStep(secret: Secret, l: Label, m: Label) {
    match l
    case Send(n) => m.Send? && Public(secret, n) == Public(secret, m.n)
    case Record(_) => m.Record?
    case _ => l == m
  }

  ghost predicate SameSteps(secret: Secret, ls: seq<Label>, ms: seq<Label>) {
    |ls| == |ms| && forall i :: 0 <= i < |ls| ==> SameStep(secret, ls[i], ms[i])
  }

  function PublicSender(secret: Secret, g: Sender): Sender {
    g.(n := Public(secret, g.n))
  }

  function PublicBlocked(secret: Secret, b: Blocked): Blocked {
    b.(n := Public(secret, b.n))
  }

  function PublicDispatch(secret: Secret, d: Dispatch): Dispatch {
    d.(n := Public(secret, d.n))
  }

  function PublicLoop(secret: Secret, loop: Loop): Loop {
    match loop
    case Received(d) => Received(PublicDispatch(secret, d))
    case Forwarding(p) => Forwarding(p.(totals := Totals(0, 0, 0)))
    case _ => loop
  }

  /** Everything about a subscription for an outsider, only its identity for the others. */
  ghost predicate SubsAgree(secret: Secret, x: Subscription, y: Subscription) {
    x.profile == y.profile && (Outsider(secret, x.profile) ==> x == y)
  }

  ghost predicate Alike(secret: Secret, s: State, t: State) {
    && s.now == t.now
    && |s.senders| == |t.senders|
    && (forall i :: 0 <= i < |s.senders| ==> PublicSender(secret, s.senders[i]) == PublicSender(secret, t.senders[i]))
    && |s.blocked| == |t.blocked|
    && (forall i :: 0 <= i < |s.blocked| ==> PublicBlocked(secret, s.blocked[i]) == PublicBlocked(secret, t.blocked[i]))
    && PublicLoop(secret, s.loop) == PublicLoop(secret, t.loop)
    && |s.dispatched| == |t.dispatched|
    && (forall i :: 0 <= i < |s.dispatched| ==>
          PublicDispatch(secret, s.dispatched[i]) == PublicDispatch(secret, t.dispatched[i]))
    && s.registered == t.registered
    && s.subs.Keys == t.subs.Keys
    && forall id :: id in s.subs ==> SubsAgree(secret, s.subs[id], t.subs[id])
  }

  lemma SameOffer(c: Config, secret: Secret, index: nat, a: NotificationModel, b: NotificationModel, hasAccess: bool,
                  x: Subscription, y: Subscription)
    requires Public(secret, a) == Public(secret, b) && SubsAgree(secret, x, y)
    ensures SubsAgree(secret, Offered(index, a, hasAccess, x, Fate(c, a, hasAccess, x)),
                      Offered(index, b, hasAccess, y, Fate(c, b, hasAccess, y)))
  {
    SameTreatment(secret, c.policyAt(index), x.profile, a, b, hasAccess);
  }

  lemma ForwardKeepsAlike(c: Config, secret: Secret, s: State, t: State, id: string)
    requires Alike(secret, s, t) && Enabled(c, s, Forward(id)) && Enabled(c, t, Forward(id))
    ensures Alike(secret, ApplyForward(c, s, id), ApplyForward(c, t, id))
  {
    var a, b := LastDispatch(s), LastDispatch(t);
    assert PublicDispatch(secret, a) == PublicDispatch(secret, b);
    SameOffer(c, secret, s.loop.pass.index, a.n, b.n, s.loop.pass.evaluation.hasAccess, s.subs[id], t.subs[id]);
  }

  lemma LockKeepsAlike(c: Config, secret: Secret, s: State, t: State)
    requires Alike(secret, s, t) && s.loop.Received? && t.loop.Received?
    ensures Alike(secret, ApplyLock(c, s), ApplyLock(c, t))
  {
  }

  lemma WakeKeepsAlike(c: Config, secret: Secret, s: State, t: State, i: nat)
    requires Alike(secret, s, t) && i < |s.senders|
    ensures Alike(secret, ApplyWake(c, s, i), ApplyWake(c, t, i))
  {
  }

  lemma BlockKeepsAlike(secret: Secret, s: State, t: State, i: nat)
    requires Alike(secret, s, t) && i < |s.senders| && s.senders[i].stampedAt.Some? && t.senders[i].stampedAt.Some?
    ensures Alike(secret, ApplyBlock(s, i), ApplyBlock(t, i))
  {
    assert PublicSender(secret, s.senders[i]) == PublicSender(secret, t.senders[i]);
  }

  lemma ReceiveKeepsAlike(c: Config, secret: Secret, s: State, t: State)
    requires Alike(secret, s, t) && s.blocked != [] && t.blocked != []
    ensures Alike(secret, ApplyReceive(s), ApplyReceive(t))
  {
  }

  /** Only the subscriptions of one id change, and they change alike. */
  lemma OneKeepsAlike(secret: Secret, s: State, t: State, next: State, next': State, id: string)
    requires Alike(secret, s, t) && next.registered == next'.registered
    requires next == s.(subs := next.subs, registered := next.registered)
    requires next' == t.(subs := next'.subs, registered := next'.registered)
    requires id in next.subs && next.subs == s.subs[id := next.subs[id]]
    requires id in next'.subs && next'.subs == t.subs[id := next'.subs[id]]
    requires SubsAgree(secret, next.subs[id], next'.subs[id])
    ensures Alike(secret, next, next')
  {
  }

  lemma RegisteringKeepsAlike(c: Config, secret: Secret, s: State, t: State, l: Label)
    requires Alike(secret, s, t) && Enabled(c, s, l) && Enabled(c, t, l)
    requires l.Connect? || l.Subscribe? || l.Unsubscribe?
    ensures Alike(secret, Apply(c, s, l), Apply(c, t, l))
  {
    match l
    case Connect(profile) =>
      OneKeepsAlike(secret, s, t, ApplyConnect(s, profile), ApplyConnect(t, profile), profile.id);
    case Subscribe(id) => OneKeepsAlike(secret, s, t, ApplySubscribe(s, id), ApplySubscribe(t, id), id);
    case Unsubscribe(id) => OneKeepsAlike(secret, s, t, ApplyUnsubscribe(s, id), ApplyUnsubscribe(t, id), id);
  }

  lemma HandlerKeepsAlike(c: Config, secret: Secret, s: State, t: State, l: Label)
    requires Alike(secret, s, t) && Enabled(c, s, l) && Enabled(c, t, l)
    requires l.Deliver? || l.Drive?
    ensures Alike(secret, Apply(c, s, l), Apply(c, t, l))
  {
    match l
    case Deliver(id) => OneKeepsAlike(secret, s, t, ApplyDeliver(c, s, id), ApplyDeliver(c, t, id), id);
    case Drive(id, action) =>
      OneKeepsAlike(secret, s, t, ApplyDrive(c, s, id, action), ApplyDrive(c, t, id, action), id);
  }

  lemma ClockKeepsAlike(c: Config, secret: Secret, s: State, t: State, l: Label, m: Label)
    requires Alike(secret, s, t) && SameStep(secret, l, m) && Enabled(c, s, l) && Enabled(c, t, m)
    requires l.Tick? || l.Send? || l.Unlock? || l.Record? || l.Stop?
    ensures Alike(secret, Apply(c, s, l), Apply(c, t, m))
  {
  }

  lemma StepKeepsAlike(c: Config, secret: Secret, s: State, t: State, l: Label, m: Label)
    requires Alike(secret, s, t) && SameStep(secret, l, m)
    requires Enabled(c, s, l) && Enabled(c, t, m)
    ensures Alike(secret, Apply(c, s, l), Apply(c, t, m))
  {
    if l.Tick? || l.Send? || l.Unlock? || l.Record? || l.Stop? {
      ClockKeepsAlike(c, secret, s, t, l, m);
    } else if l.Connect? || l.Subscribe? || l.Unsubscribe? {
      RegisteringKeepsAlike(c, secret, s, t, l);
    } else if l.Deliver? || l.Drive? {
      HandlerKeepsAlike(c, secret, s, t, l);
    } else if l.Wake? {
      WakeKeepsAlike(c, secret, s, t, l.i);
    } else if l.Block? {
      BlockKeepsAlike(secret, s, t, l.i);
    } else if l.Receive? {
      ReceiveKeepsAlike(c, secret, s, t);
    } else if l.Lock? {
      LockKeepsAlike(c, secret, s, t);
    } else {
      ForwardKeepsAlike(c, secret, s, t, l.id);
    }
  }

  lemma AlikeBackwards(secret: Secret, s: State, t: State)
    requires Alike(secret, s, t)
    ensures Alike(secret, t, s)
  {
  }

  // ---------------------------------------------------------------- steps of insiders alone

  /** A step of one of these subscribers' handlers or timers. */
  predicate IsReading(l: Label, ids: set<string>) {
    (l.Deliver? || l.Drive?) && l.id in ids
  }

  /** The steps of a run without the reading of these subscribers. */
  function Shared(ls: seq<Label>, ids: set<string>): seq<Label> {
    if ls == [] then []
    else if IsReading(ls[0], ids) then Shared(ls[1..], ids)
    else [ls[0]] + Shared(ls[1..], ids)
  }

  /** None of these subscribers is an outsider. */
  ghost predicate AreInsiders(secret: Secret, s: State, ids: set<string>) {
    forall id :: id in s.subs && id in ids ==> !Outsider(secret, s.subs[id].profile)
  }

  ghost predicate ConnectInsiders(secret: Secret, ls: seq<Label>, ids: set<string>) {
    forall i :: 0 <= i < |ls| ==> ls[i].Connect? && ls[i].profile.id in ids ==> !Outsider(secret, ls[i].profile)
  }

  lemma StepKeepsInsiders(c: Config, secret: Secret, s: State, l: Label, ids: set<string>)
    requires AreInsiders(secret, s, ids) && Enabled(c, s, l)
    requires l.Connect? && l.profile.id in ids ==> !Outsider(secret, l.profile)
    ensures AreInsiders(secret, Apply(c, s, l), ids)
  {
    if Touches(l) {
      TouchesOne(c, s, l);
      TouchedProfile(c, s, l);
    } else {
      OthersTouchNothing(c, s, l);
    }
  }

  lemma TouchedProfile(c: Config, s: State, l: Label)
    requires Enabled(c, s, l) && Touches(l)
    ensures var next, id := Apply(c, s, l), Touched(l);
      id in next.subs && next.subs[id].profile == if l.Connect? then l.profile else s.subs[id].profile
  {
  }

  lemma InsidersAgree(secret: Secret, s: State, t: State, ids: set<string>)
    requires Alike(secret, s, t) && AreInsiders(secret, s, ids)
    ensures AreInsiders(secret, t, ids)
  {
  }

  /** What an insider's handler does stays between the insider and its stream. */
  lemma ReadingKeepsAlike(c: Config, secret: Secret, s: State, t: State, l: Label, ids: set<string>)
    requires Alike(secret, s, t) && AreInsiders(secret, s, ids) && Enabled(c, s, l) && IsReading(l, ids)
    ensures Alike(secret, Apply(c, s, l), t)
  {
    if l.Deliver? {
      OneKeepsAlike(secret, s, t, ApplyDeliver(c, s, l.id), t, l.id);
    } else {
      OneKeepsAlike(secret, s, t, ApplyDrive(c, s, l.id, l.action), t, l.id);
    }
  }

  lemma BothKeepAlike(c: Config, secret: Secret, ids: set<string>, s: State, t: State, l: Label, m: Label)
    requires Alike(secret, s, t) && AreInsiders(secret, s, ids) && SameStep(secret, l, m)
    requires Enabled(c, s, l) && Enabled(c, t, m)
    requires l.Connect? && l.profile.id in ids ==> !Outsider(secret, l.profile)
    ensures Alike(secret, Apply(c, s, l), Apply(c, t, m)) && AreInsiders(secret, Apply(c, s, l), ids)
  {
    StepKeepsAlike(c, secret, s, t, l, m);
    StepKeepsInsiders(c, secret, s, l, ids);
  }

  lemma LeftKeepsAlike(c: Config, secret: Secret, ids: set<string>, s: State, t: State, l: Label)
    requires Alike(secret, s, t) && AreInsiders(secret, s, ids) && Enabled(c, s, l) && IsReading(l, ids)
    ensures Alike(secret, Apply(c, s, l), t) && AreInsiders(secret, Apply(c, s, l), ids)
  {
    ReadingKeepsAlike(c, secret, s, t, l, ids);
    StepKeepsInsiders(c, secret, s, l, ids);
  }

  lemma RightKeepsAlike(c: Config, secret: Secret, ids: set<string>, s: State, t: State, m: Label)
    requires Alike(secret, s, t) && AreInsiders(secret, s, ids) && Enabled(c, t, m) && IsReading(m, ids)
    ensures Alike(secret, s, Apply(c, t, m))
  {
    AlikeBackwards(secret, s, t);
    InsidersAgree(secret, s, t, ids);
    ReadingKeepsAlike(c, secret, t, s, m, ids);
    AlikeBackwards(secret, Apply(c, t, m), s);
  }

  lemma {:induction false} RunsStayAlike(c: Config, secret: Secret, ids: set<string>, s: State, t: State,
                                         ls: seq<Label>, ms: seq<Label>)
    requires Alike(secret, s, t) && AreInsiders(secret, s, ids)
    requires ConnectInsiders(secret, ls, ids)
    requires SameSteps(secret, Shared(ls, ids), Shared(ms, ids))
    requires Valid(c, s, ls) && Valid(c, t, ms)
    ensures Alike(secret, Exec(c, s, ls), Exec(c, t, ms))
    decreases |ls| + |ms|, 1
  {
    if ls != [] && IsReading(ls[0], ids) {
      LeftKeepsAlike(c, secret, ids, s, t, ls[0]);
      ConnectTail(secret, ls, ids);
      RunsStayAlike(c, secret, ids, Apply(c, s, ls[0]), t, ls[1..], ms);
    } else if ms != [] && IsReading(ms[0], ids) {
      RightKeepsAlike(c, secret, ids, s, t, ms[0]);
      RunsStayAlike(c, secret, ids, s, Apply(c, t, ms[0]), ls, ms[1..]);
    } else if ls != [] && ms != [] {
      BothStayAlike(c, secret, ids, s, t, ls, ms);
    }
  }

  lemma {:induction false} BothStayAlike(c: Config, secret: Secret, ids: set<string>, s: State, t: State,
                                         ls: seq<Label>, ms: seq<Label>)
    requires Alike(secret, s, t) && AreInsiders(secret, s, ids)
    requires ConnectInsiders(secret, ls, ids)
    requires SameSteps(secret, Shared(ls, ids), Shared(ms, ids))
    requires Valid(c, s, ls) && Valid(c, t, ms)
    requires ls != [] && !IsReading(ls[0], ids) && ms != [] && !IsReading(ms[0], ids)
    ensures Alike(secret, Exec(c, s, ls), Exec(c, t, ms))
    decreases |ls| + |ms|, 0
  {
    SameHeads(secret, ls[0], Shared(ls[1..], ids), ms[0], Shared(ms[1..], ids));
    ConnectTail(secret, ls, ids);
    BothKeepAlike(c, secret, ids, s, t, ls[0], ms[0]);
    RunsStayAlike(c, secret, ids, Apply(c, s, ls[0]), Apply(c, t, ms[0]), ls[1..], ms[1..]);
  }

  lemma ConnectTail(secret: Secret, ls: seq<Label>, ids: set<string>)
    requires ls != [] && ConnectInsiders(secret, ls, ids)
    ensures ConnectInsiders(secret, ls[1..], ids)
    ensures ls[0].Connect? && ls[0].profile.id in ids ==> !Outsider(secret, ls[0].profile)
  {
  }

  lemma SameHeads(secret: Secret, l: Label, ls: seq<Label>, m: Label, ms: seq<Label>)
    requires SameSteps(secret, [l] + ls, [m] + ms)
    ensures SameStep(secret, l, m) && SameSteps(secret, ls, ms)
  {
    assert SameStep(secret, ([l] + ls)[0], ([m] + ms)[0]);
    forall i | 0 <= i < |ls|
      ensures SameStep(secret, ls[i], ms[i])
    {
      assert SameStep(secret, ([l] + ls)[i + 1], ([m] + ms)[i + 1]);
    }
  }

  lemma {:induction false} SharedByAll(ls: seq<Label>)
    ensures Shared(ls, {}) == ls
  {
    if ls != [] {
      SharedByAll(ls[1..]);
    }
  }

  /**
   * Two runs of the same steps, whose notifications differ only in the secret, give every outsider
   * the same buffer, the same stream and the same timer.
   */
  lemma OutsidersSeeNoDifference(c: Config, secret: Secret, ls: seq<Label>, ms: seq<Label>, id: string)
    requires SameSteps(secret, ls, ms) && Valid(c, INITIAL, ls) && Valid(c, INITIAL, ms)
    ensures var s, t := Exec(c, INITIAL, ls), Exec(c, INITIAL, ms);
      && s.registered == t.registered && s.subs.Keys == t.subs.Keys
      && (id in s.subs ==> s.subs[id].profile == t.subs[id].profile)
      && (id in s.subs && Outsider(secret, s.subs[id].profile) ==> s.subs[id] == t.subs[id])
  {
    SharedByAll(ls);
    SharedByAll(ms);
    RunsStayAlike(c, secret, {}, INITIAL, INITIAL, ls, ms);
  }

  /**
   * Isolation between subscribers: however differently one of them reads, writes, times out or
   * fails in two runs that are otherwise the same, everybody else is given the same.
   */
  lemma OthersUnaffected(c: Config, reader: string, ls: seq<Label>, ms: seq<Label>, id: string)
    requires Shared(ls, {reader}) == Shared(ms, {reader}) && Valid(c, INITIAL, ls) && Valid(c, INITIAL, ms)
    ensures var s, t := Exec(c, INITIAL, ls), Exec(c, INITIAL, ms);
      && s.registered == t.registered && s.subs.Keys == t.subs.Keys && s.dispatched == t.dispatched
      && (id in s.subs && id != reader ==> s.subs[id] == t.subs[id])
  {
    RunsStayAlike(c, ReadingOf(reader), {reader}, INITIAL, INITIAL, ls, ms);
    ReachedBy(c, ls);
    AlikeForOthers(reader, Exec(c, INITIAL, ls), Exec(c, INITIAL, ms));
  }

  lemma ReachedBy(c: Config, ls: seq<Label>)
    requires Valid(c, INITIAL, ls)
    ensures RegistrationOk(Exec(c, INITIAL, ls))
  {
    assert Reachable(c, Exec(c, INITIAL, ls));
    ReachablePass(c, Exec(c, INITIAL, ls));
  }

  lemma AlikeForOthers(reader: string, s: State, t: State)
    requires Alike(ReadingOf(reader), s, t) && RegistrationOk(s)
    ensures s.registered == t.registered && s.subs.Keys == t.subs.Keys && s.dispatched == t.dispatched
    ensures forall id :: id in s.subs && id != reader ==> s.subs[id] == t.subs[id]
  {
    forall i | 0 <= i < |s.dispatched|
      ensures s.dispatched[i] == t.dispatched[i]
    {
      assert PublicDispatch(ReadingOf(reader), s.dispatched[i]) == PublicDispatch(ReadingOf(reader), t.dispatched[i]);
    }
    forall id | id in s.subs && id != reader
      ensures s.subs[id] == t.subs[id]
    {
      assert SubsAgree(ReadingOf(reader), s.subs[id], t.subs[id]);
    }
  }

  // ---------------------------------------------------------------- what outsiders cannot rule out

  /** An insider of the other run just waits, registered exactly while the first run's insider is. */
  predicate Shadows(phase: Phase<Entry>, shadow: Phase<Entry>) {
    && (phase.Subscribing? <==> shadow.Subscribing?)
    && (phase.Gone? <==> shadow.Gone?)
    && (InService(phase) ==> shadow.Starting?)
  }

  ghost predicate SubFollows(secret: Secret, x: Subscription, y: Subscription) {
    !Outsider(secret, x.profile) ==> Shadows(x.handler.phase, y.handler.phase)
  }

  ghost predicate Follows(secret: Secret, s: State, t: State) {
    Alike(secret, s, t) && forall id :: id in s.subs ==> SubFollows(secret, s.subs[id], t.subs[id])
  }

  /** The step the other run takes for one that is not an insider's own. */
  ghost predicate Mirrors(secret: Secret, l: Label, m: Label, ns: seq<NotificationModel>) {
    SameStep(secret, l, m) && (l.Send? ==> ns == [m.n])
  }

  /** What is sent in place of what this step sends, if it sends anything. */
  ghost predicate Replaces(secret: Secret, l: Label, ns: seq<NotificationModel>) {
    if l.Send? then |ns| == 1 && Public(secret, l.n) == Public(secret, ns[0]) else ns == []
  }

  lemma MirrorOfLoop(c: Config, secret: Secret, s: State, t: State, l: Label, ns: seq<NotificationModel>)
    returns (m: Label)
    requires Alike(secret, s, t) && Enabled(c, s, l) && (!Touches(l) || l.Forward?)
    requires Replaces(secret, l, ns)
    ensures Enabled(c, t, m) && Mirrors(secret, l, m, ns)
  {
    match l
    case Send(_) => m := Send(ns[0]);
    case Record(_) =>
      var sorted := SortExists(c.parse, multiset(t.history + [LastDispatch(t).n]));
      m := Record(sorted);
    case Wake(i) =>
      assert PublicSender(secret, s.senders[i]) == PublicSender(secret, t.senders[i]);
      m := l;
    case Block(i) =>
      assert PublicSender(secret, s.senders[i]) == PublicSender(secret, t.senders[i]);
      m := l;
    case _ => m := l;
  }

  lemma MirrorKeepsFollows(c: Config, secret: Secret, s: State, t: State, l: Label, m: Label)
    requires Follows(secret, s, t) && Enabled(c, s, l) && Enabled(c, t, m) && SameStep(secret, l, m)
    requires (l.Deliver? || l.Drive? || l.Unsubscribe?) ==> Outsider(secret, s.subs[l.id].profile)
    ensures Follows(secret, Apply(c, s, l), Apply(c, t, m))
  {
    StepKeepsAlike(c, secret, s, t, l, m);
    if Touches(l) {
      TouchKeepsFollows(c, secret, s, t, l);
    } else {
      OthersTouchNothing(c, s, l);
      OthersTouchNothing(c, t, m);
      SameFollows(secret, s, t, Apply(c, s, l), Apply(c, t, m));
    }
  }

  lemma SameFollows(secret: Secret, s: State, t: State, next: State, next': State)
    requires Follows(secret, s, t) && Alike(secret, next, next') && next.subs == s.subs && next'.subs == t.subs
    ensures Follows(secret, next, next')
  {
  }

  lemma TouchKeepsFollows(c: Config, secret: Secret, s: State, t: State, l: Label)
    requires Follows(secret, s, t) && Enabled(c, s, l) && Enabled(c, t, l) && Touches(l)
    requires Alike(secret, Apply(c, s, l), Apply(c, t, l))
    requires (l.Deliver? || l.Drive? || l.Unsubscribe?) ==> Outsider(secret, s.subs[l.id].profile)
    ensures Follows(secret, Apply(c, s, l), Apply(c, t, l))
  {
    TouchesOne(c, s, l);
    TouchesOne(c, t, l);
    TouchFollows(c, secret, s, t, l);
    OneFollows(secret, s, t, Apply(c, s, l), Apply(c, t, l), Touched(l));
  }

  lemma OneFollows(secret: Secret, s: State, t: State, next: State, next': State, id: string)
    requires Follows(secret, s, t) && Alike(secret, next, next')
    requires id in next.subs && next.subs == s.subs[id := next.subs[id]]
    requires id in next'.subs && next'.subs == t.subs[id := next'.subs[id]]
    requires SubFollows(secret, next.subs[id], next'.subs[id])
    ensures Follows(secret, next, next')
  {
  }

  lemma TouchFollows(c: Config, secret: Secret, s: State, t: State, l: Label)
    requires Enabled(c, s, l) && Enabled(c, t, l) && Touches(l)
    requires Touched(l) in s.subs && Touched(l) in t.subs ==> SubFollows(secret, s.subs[Touched(l)], t.subs[Touched(l)])
    requires Touched(l) in s.subs <==> Touched(l) in t.subs
    requires (l.Deliver? || l.Drive? || l.Unsubscribe?) ==> Outsider(secret, s.subs[l.id].profile)
    ensures Touched(l) in Apply(c, s, l).subs && Touched(l) in Apply(c, t, l).subs
    ensures SubFollows(secret, Apply(c, s, l).subs[Touched(l)], Apply(c, t, l).subs[Touched(l)])
  {
  }

  /** When an insider reads, the other run does nothing. */
  lemma ReadingKeepsFollows(c: Config, secret: Secret, s: State, t: State, l: Label)
    requires Follows(secret, s, t) && Enabled(c, s, l) && (l.Deliver? || l.Drive?)
    requires !Outsider(secret, s.subs[l.id].profile)
    ensures Follows(secret, Apply(c, s, l), t)
  {
    ReadingKeepsAlike(c, secret, s, t, l, {l.id});
    TouchesOne(c, s, l);
    assert SubFollows(secret, s.subs[l.id], t.subs[l.id]);
    ReadingKeepsShadow(c, s, l, t.subs[l.id].handler.phase);
    OneFollows(secret, s, t, Apply(c, s, l), t, l.id);
  }

  lemma ReadingKeepsShadow(c: Config, s: State, l: Label, shadow: Phase<Entry>)
    requires Enabled(c, s, l) && (l.Deliver? || l.Drive?) && Shadows(s.subs[l.id].handler.phase, shadow)
    ensures Apply(c, s, l).subs[l.id].profile == s.subs[l.id].profile
    ensures Shadows(Apply(c, s, l).subs[l.id].handler.phase, shadow)
  {
  }

  /** When an insider unregisters, its shadow creates its timer, fails to greet, and unregisters. */
  function Departure(id: string): seq<Label> {
    [Drive(id, Listen)] + [Drive(id, Greet(false))] + [Unsubscribe(id)]
  }

  lemma OnlySubChanges(t: State, u: State, v: State, id: string)
    requires id in t.subs && id in u.subs && id in v.subs
    requires u == t.(subs := t.subs[id := u.subs[id]]) && v == u.(subs := u.subs[id := v.subs[id]])
    ensures v == t.(subs := t.subs[id := v.subs[id]])
  {
  }

  lemma Closes(c: Config, t: State, id: string)
    requires id in t.subs && t.subs[id].handler.phase.Starting?
    ensures Valid(c, t, [Drive(id, Listen)] + [Drive(id, Greet(false))])
    ensures var u := Exec(c, t, [Drive(id, Listen)] + [Drive(id, Greet(false))]);
      && id in u.subs && u == t.(subs := t.subs[id := u.subs[id]])
      && u.subs[id].profile == t.subs[id].profile && u.subs[id].handler.phase == Closing(None)
  {
    OneStep(c, t, Drive(id, Listen));
    var t1 := ApplyDrive(c, t, id, Listen);
    ExecAppend(c, t, [Drive(id, Listen)], Drive(id, Greet(false)));
    OnlySubChanges(t, t1, ApplyDrive(c, t1, id, Greet(false)), id);
  }

  lemma DepartureRuns(c: Config, t: State, id: string)
    requires id in t.subs && t.subs[id].handler.phase.Starting? && WriteLockFree(t)
    ensures Valid(c, t, Departure(id))
    ensures var u := Exec(c, t, Departure(id));
      && id in u.subs && u == t.(subs := t.subs[id := u.subs[id]], registered := t.registered - {id})
      && u.subs[id].profile == t.subs[id].profile && u.subs[id].handler.phase == Gone(None)
  {
    var closing := [Drive(id, Listen)] + [Drive(id, Greet(false))];
    Closes(c, t, id);
    ExecAppend(c, t, closing, Unsubscribe(id));
    var u := ApplyUnsubscribe(Exec(c, t, closing), id);
    assert u.subs == t.subs[id := u.subs[id]];
  }

  lemma DepartureFollows(c: Config, secret: Secret, s: State, t: State, id: string)
    requires Follows(secret, s, t) && Enabled(c, s, Unsubscribe(id)) && !Outsider(secret, s.subs[id].profile)
    ensures Valid(c, t, Departure(id))
    ensures Follows(secret, Apply(c, s, Unsubscribe(id)), Exec(c, t, Departure(id)))
    ensures Exec(c, t, Departure(id)).sends == t.sends
  {
    assert SubFollows(secret, s.subs[id], t.subs[id]);
    DepartureRuns(c, t, id);
    var next, u := ApplyUnsubscribe(s, id), Exec(c, t, Departure(id));
    OneKeepsAlike(secret, s, t, next, u, id);
    assert SubFollows(secret, next.subs[id], u.subs[id]);
  }

  /** The other run can answer every step, sending whatever it is told to in place of what was sent. */
  lemma FollowStep(c: Config, secret: Secret, s: State, t: State, l: Label, ns: seq<NotificationModel>)
    returns (ms: seq<Label>)
    requires Follows(secret, s, t) && Enabled(c, s, l)
    requires Replaces(secret, l, ns)
    ensures Valid(c, t, ms) && Follows(secret, Apply(c, s, l), Exec(c, t, ms))
    ensures Exec(c, t, ms).sends == t.sends + ns
  {
    if (l.Deliver? || l.Drive?) && !Outsider(secret, s.subs[l.id].profile) {
      ReadingKeepsFollows(c, secret, s, t, l);
      ms := [];
    } else if l.Unsubscribe? && !Outsider(secret, s.subs[l.id].profile) {
      DepartureFollows(c, secret, s, t, l.id);
      ms := Departure(l.id);
    } else {
      var m := Mirror(c, secret, s, t, l, ns);
      MirrorKeepsFollows(c, secret, s, t, l, m);
      OneStep(c, t, m);
      ms := [m];
    }
  }

  lemma Mirror(c: Config, secret: Secret, s: State, t: State, l: Label, ns: seq<NotificationModel>)
    returns (m: Label)
    requires Follows(secret, s, t) && Enabled(c, s, l)
    requires Replaces(secret, l, ns)
    requires (l.Deliver? || l.Drive? || l.Unsubscribe?) ==> Outsider(secret, s.subs[l.id].profile)
    ensures Enabled(c, t, m) && Mirrors(secret, l, m, ns)
    ensures Apply(c, t, m).sends == t.sends + ns
  {
    if !Touches(l) || l.Forward? {
      m := MirrorOfLoop(c, secret, s, t, l, ns);
    } else {
      m := l;
      assert !l.Connect? ==> SubsAgree(secret, s.subs[Touched(l)], t.subs[Touched(l)]);
      assert !l.Connect? ==> SubFollows(secret, s.subs[Touched(l)], t.subs[Touched(l)]);
    }
  }

  lemma {:induction false} SendsGrow(c: Config, s: State, ls: seq<Label>)
    requires Valid(c, s, ls)
    ensures s.sends <= Exec(c, s, ls).sends
    decreases |ls|
  {
    if ls != [] {
      SendsGrow(c, Apply(c, s, ls[0]), ls[1..]);
    }
  }

  lemma {:induction false} FollowRun(c: Config, secret: Secret, s: State, t: State, ls: seq<Label>,
                                     news: seq<NotificationModel>) returns (ms: seq<Label>)
    requires Follows(secret, s, t) && Valid(c, s, ls)
    requires PublicTwins(secret, Exec(c, s, ls).sends, news) && |s.sends| <= |news| && t.sends == news[..|s.sends|]
    ensures Valid(c, t, ms) && Follows(secret, Exec(c, s, ls), Exec(c, t, ms)) && Exec(c, t, ms).sends == news
    decreases |ls|
  {
    if ls == [] {
      ms := [];
    } else {
      var next := Apply(c, s, ls[0]);
      SendsGrow(c, next, ls[1..]);
      NextSend(c, secret, s, ls[0], Exec(c, s, ls).sends, news);
      var first := FollowStep(c, secret, s, t, ls[0], if ls[0].Send? then [news[|s.sends|]] else []);
      var rest := FollowRun(c, secret, next, Exec(c, t, first), ls[1..], news);
      ExecConcat(c, t, first, rest);
      ms := first + rest;
    }
  }

  /** The same notifications but for the secret. */
  ghost predicate PublicTwins(secret: Secret, a: seq<NotificationModel>, b: seq<NotificationModel>) {
    |a| == |b| && forall i :: 0 <= i < |a| ==> Public(secret, a[i]) == Public(secret, b[i])
  }

  lemma NextSend(c: Config, secret: Secret, s: State, l: Label, all: seq<NotificationModel>,
                 news: seq<NotificationModel>)
    requires Enabled(c, s, l) && Apply(c, s, l).sends <= all && PublicTwins(secret, all, news)
    ensures |Apply(c, s, l).sends| <= |news|
    ensures l.Send? ==> |s.sends| < |news| && Public(secret, l.n) == Public(secret, news[|s.sends|])
    ensures news[..|Apply(c, s, l).sends|] == news[..|s.sends|] + if l.Send? then [news[|s.sends|]] else []
  {
    if l.Send? {
      assert Apply(c, s, l).sends[|s.sends|] == l.n == all[|s.sends|];
    }
  }

  /**
   * Outsiders cannot rule out any secret: for every run, and for any notifications that agree with
   * the ones it sent outside the secret, some run sends those and gives every outsider the same
   * buffer, stream and timer, though the encoder may treat the insiders' messages quite differently.
   */
  lemma OutsidersCannotRuleOut(c: Config, secret: Secret, ls: seq<Label>, news: seq<NotificationModel>)
    returns (ms: seq<Label>)
    requires Valid(c, INITIAL, ls) && PublicTwins(secret, Exec(c, INITIAL, ls).sends, news)
    ensures Valid(c, INITIAL, ms) && Exec(c, INITIAL, ms).sends == news
    ensures var s, t := Exec(c, INITIAL, ls), Exec(c, INITIAL, ms);
      && s.now == t.now && s.registered == t.registered && s.subs.Keys == t.subs.Keys
      && forall id :: id in s.subs && Outsider(secret, s.subs[id].profile) ==> s.subs[id] == t.subs[id]
  {
    SendsGrow(c, INITIAL, ls);
    assert news[..0] == [];
    ms := FollowRun(c, secret, INITIAL, INITIAL, ls, news);
    var s, t := Exec(c, INITIAL, ls), Exec(c, INITIAL, ms);
    forall id | id in s.subs && Outsider(secret, s.subs[id].profile)
      ensures s.subs[id] == t.subs[id]
    {
      assert SubsAgree(secret, s.subs[id], t.subs[id]);
    }
  }

  /** Without the advanced option a subscriber is never given a CREATE. */
  lemma NeverGivenCreate(c: Config, s: State, id: string, e: Entry)
    requires Reachable(c, s) && id in s.subs && e in s.subs[id].accepted
    ensures e.index < |s.dispatched|
    ensures e.response.eventType == CONTENT_CREATE_TYPE <==>
      s.subs[id].profile.options.receiveAdvancedNotifications
      && s.dispatched[e.index].n.eventType == CONTENT_CREATE_TYPE
  {
    ReachableInv(c, s);
    AcceptedIsOwed(c, s, id, e);
  }
}
