// The dispatcher, its delayed senders and its stream handlers as one labelled step system.
//
// A label names one atomic action of one goroutine together with every choice it makes, so the
// next state is a function of the state and the label, and a run is a sequence of labels.
// The forwarding loop takes one step per subscriber while it holds the read lock; every step that
// needs the write lock is blocked meanwhile, and every other step may come in between.
module Protocol {

  import opened Basics
  import opened Notifications
  import opened Subscribers
  import opened History
  import opened Dispatching
  import opened Handler

  /** The surroundings: settings, and the library and policy calls as arbitrary functions. */
  datatype Config = Config(
    delay: int,
    period: int,
    historySize: int,
    parse: DateParser,
    format: int -> string,
    policyAt: nat -> Policy,     // the policy may answer differently at every forward
    encode: Encoder)

  /** A goroutine started by Send: asleep, or with its date stamped and on its way to the channel. */
  datatype Sender = Sender(n: NotificationModel, sentAt: int, stampedAt: Option<int>)

  /** A goroutine blocked on the inbound channel, which serves them in the order they came. */
  datatype Blocked = Blocked(n: NotificationModel, sentAt: int, stampedAt: int)

  /** A notification the dispatcher received. */
  datatype Dispatch = Dispatch(n: NotificationModel, sentAt: int, stampedAt: int, receivedAt: int)

  /** A message in a subscriber's buffer; `index` counts the forwards so far. */
  datatype Entry = Entry(index: nat, response: NotificationResponse, body: string)

  /** A forward in progress: the subscribers not yet visited and the counters. */
  datatype Pass = Pass(index: nat, evaluation: Evaluation, todo: set<string>, totals: Totals)

  datatype Loop =
    | Idle
    | Received(d: Dispatch)      // waiting for the read lock
    | Forwarding(pass: Pass)     // holding the read lock
    | Recording                  // about to push to the history
    | Stopped

  datatype Subscription = Subscription(
    profile: Profile,
    handler: Handler<Entry>,
    buffer: seq<Entry>,
    accepted: seq<Entry>,        // everything ever put into the buffer
    refused: set<nat>,           // the forwards that found the buffer full
    joined: nat,                 // how many forwards had begun when it registered
    left: nat)                   // and when it unregistered

  /** The deferred log line of a forward. */
  datatype LogLine = LogLine(totals: Totals, subscribers: nat, failure: bool)

  datatype State = State(
    now: int,
    senders: seq<Sender>,                // not yet blocked, in the order they were sent
    blocked: seq<Blocked>,               // on the inbound channel, first come first
    loop: Loop,
    subs: map<string, Subscription>,
    registered: set<string>,
    history: seq<NotificationModel>,
    sends: seq<NotificationModel>,       // every notification ever passed to Send
    dispatched: seq<Dispatch>,           // every notification whose forward began
    pushed: seq<NotificationModel>,      // every notification ever pushed to the history
    log: seq<LogLine>)

  datatype Label =
    | Tick(dt: nat)
    | Send(n: NotificationModel)
    | Wake(i: nat)
    | Block(i: nat)
    | Receive
    | Lock
    | Forward(id: string)
    | Unlock
    | Record(sorted: seq<NotificationModel>)
    | Stop
    | Connect(profile: Profile)
    | Subscribe(id: string)
    | Unsubscribe(id: string)
    | Deliver(id: string)
    | Drive(id: string, action: Action<Entry>)

  const INITIAL: State := State(0, [], [], Idle, map[], {}, [], [], [], [], [])

  /** The write lock is free unless a forward holds the read lock. */
  predicate WriteLockFree(s: State) {
    !s.loop.Forwarding?
  }

  function LastDispatch(s: State): Dispatch
    requires s.dispatched != []
  {
    s.dispatched[|s.dispatched| - 1]
  }

  ghost predicate Enabled(c: Config, s: State, l: Label) {
    match l
    case Tick(_) => true
    case Send(_) => true
    case Wake(i) => i < |s.senders| && s.senders[i].stampedAt.None? && s.now >= s.senders[i].sentAt + c.delay
    case Block(i) => i < |s.senders| && s.senders[i].stampedAt.Some?
    case Receive => s.loop.Idle? && s.blocked != []
    case Lock => s.loop.Received?
    case Forward(id) =>
      s.loop.Forwarding? && id in s.loop.pass.todo && id in s.subs && s.loop.pass.evaluation.Evaluated?
      && s.dispatched != []
    case Unlock => s.loop.Forwarding? && s.loop.pass.todo == {}
    case Record(sorted) =>
      s.loop.Recording? && s.dispatched != [] && IsSortOf(c.parse, sorted, s.history + [LastDispatch(s).n])
    case Stop => s.loop.Idle?
    case Connect(profile) => profile.id !in s.subs
    case Subscribe(id) => id in s.subs && s.subs[id].handler.phase.Subscribing? && WriteLockFree(s)
    case Unsubscribe(id) => id in s.subs && s.subs[id].handler.phase.Closing? && WriteLockFree(s)
    case Deliver(id) => id in s.subs && s.subs[id].buffer != [] && s.subs[id].handler.phase.Selecting?
    case Drive(id, action) => id in s.subs && !action.Take? && CanAct(s.now, s.subs[id].handler, action)
  }

  // ---------------------------------------------------------------- senders and the loop

  function ApplyWake(c: Config, s: State, i: nat): State
    requires i < |s.senders|
  {
    var g := s.senders[i];
    s.(senders := s.senders[i := Sender(g.n.(notificationDate := c.format(s.now)), g.sentAt, Some(s.now))])
  }

  function ApplyBlock(s: State, i: nat): State
    requires i < |s.senders| && s.senders[i].stampedAt.Some?
  {
    var g := s.senders[i];
    s.(senders := Without(s.senders, i), blocked := s.blocked + [Blocked(g.n, g.sentAt, g.stampedAt.value)])
  }

  function ApplyReceive(s: State): State
    requires s.blocked != []
  {
    var b := s.blocked[0];
    s.(blocked := s.blocked[1..], loop := Received(Dispatch(b.n, b.sentAt, b.stampedAt, s.now)))
  }

  /** Takes the read lock and asks for the policy; an aborted forward visits nobody. */
  function ApplyLock(c: Config, s: State): State
    requires s.loop.Received?
  {
    var d := s.loop.d;
    var index := |s.dispatched|;
    var evaluation := Evaluate(c.policyAt(index), d.n);
    var todo := if evaluation.Aborted? then {} else s.registered;
    s.(dispatched := s.dispatched + [d], loop := Forwarding(Pass(index, evaluation, todo, Totals(0, 0, 0))))
  }

  /** What the forward in progress does to one subscriber. */
  function Fate(c: Config, n: NotificationModel, hasAccess: bool, sub: Subscription): Outcome {
    Offer(c.encode, sub.profile, n, hasAccess, |sub.buffer|)
  }

  function Offered(index: nat, n: NotificationModel, hasAccess: bool, sub: Subscription,
                   outcome: Outcome): Subscription {
    match outcome
    case Skipped => sub
    case Failed(lagging) => if lagging then sub.(refused := sub.refused + {index}) else sub
    case Sent(body) =>
      var entry := Entry(index, ResponseFor(sub.profile, n), body);
      sub.(buffer := sub.buffer + [entry], accepted := sub.accepted + [entry])
  }

  function ApplyForward(c: Config, s: State, id: string): State
    requires s.loop.Forwarding? && id in s.subs && s.loop.pass.evaluation.Evaluated? && s.dispatched != []
  {
    var p := s.loop.pass;
    var n := LastDispatch(s).n;
    var sub := s.subs[id];
    var outcome := Fate(c, n, p.evaluation.hasAccess, sub);
    s.(subs := s.subs[id := Offered(p.index, n, p.evaluation.hasAccess, sub, outcome)],
       loop := Forwarding(p.(todo := p.todo - {id}, totals := Count(p.totals, outcome))))
  }

  function ApplyUnlock(s: State): State
    requires s.loop.Forwarding?
  {
    var t := s.loop.pass.totals;
    s.(loop := Recording, log := s.log + [LogLine(t, |s.registered|, LogsError(|s.registered|, t))])
  }

  function ApplyRecord(c: Config, s: State, sorted: seq<NotificationModel>): State
    requires s.dispatched != []
  {
    s.(loop := Idle, history := DropExcess(c.historySize, sorted), pushed := s.pushed + [LastDispatch(s).n])
  }

  // ---------------------------------------------------------------- subscriptions

  function ApplyConnect(s: State, profile: Profile): State {
    s.(subs := s.subs[profile.id := Subscription(profile, Fresh(), [], [], {}, 0, 0)])
  }

  function ApplySubscribe(s: State, id: string): State
    requires id in s.subs
  {
    var sub := s.subs[id];
    s.(registered := s.registered + {id},
       subs := s.subs[id := sub.(handler := sub.handler.(phase := Starting), joined := |s.dispatched|)])
  }

  function ApplyUnsubscribe(s: State, id: string): State
    requires id in s.subs && s.subs[id].handler.phase.Closing?
  {
    var sub := s.subs[id];
    s.(registered := s.registered - {id},
       subs := s.subs[id := sub.(handler := sub.handler.(phase := Gone(sub.handler.phase.lost)),
                                 left := |s.dispatched|)])
  }

  function ApplyDeliver(c: Config, s: State, id: string): State
    requires id in s.subs && s.subs[id].buffer != [] && s.subs[id].handler.phase.Selecting?
  {
    var sub := s.subs[id];
    s.(subs := s.subs[id := sub.(buffer := sub.buffer[1..],
                                 handler := Act(c.period, s.now, sub.handler, Take(sub.buffer[0])))])
  }

  function ApplyDrive(c: Config, s: State, id: string, action: Action<Entry>): State
    requires id in s.subs && CanAct(s.now, s.subs[id].handler, action)
  {
    var sub := s.subs[id];
    s.(subs := s.subs[id := sub.(handler := Act(c.period, s.now, sub.handler, action))])
  }

  ghost function Apply(c: Config, s: State, l: Label): State
    requires Enabled(c, s, l)
  {
    match l
    case Tick(dt) => s.(now := s.now + dt)
    case Send(n) => s.(senders := s.senders + [Sender(n, s.now, None)], sends := s.sends + [n])
    case Wake(i) => ApplyWake(c, s, i)
    case Block(i) => ApplyBlock(s, i)
    case Receive => ApplyReceive(s)
    case Lock => ApplyLock(c, s)
    case Forward(id) => ApplyForward(c, s, id)
    case Unlock => ApplyUnlock(s)
    case Record(sorted) => ApplyRecord(c, s, sorted)
    case Stop => s.(loop := Stopped)
    case Connect(profile) => ApplyConnect(s, profile)
    case Subscribe(id) => ApplySubscribe(s, id)
    case Unsubscribe(id) => ApplyUnsubscribe(s, id)
    case Deliver(id) => ApplyDeliver(c, s, id)
    case Drive(id, action) => ApplyDrive(c, s, id, action)
  }

  // ---------------------------------------------------------------- runs

  ghost predicate Valid(c: Config, s: State, labels: seq<Label>)
    decreases |labels|
  {
    labels == [] || (Enabled(c, s, labels[0]) && Valid(c, Apply(c, s, labels[0]), labels[1..]))
  }

  ghost function Exec(c: Config, s: State, labels: seq<Label>): State
    requires Valid(c, s, labels)
    decreases |labels|
  {
    if labels == [] then s else Exec(c, Apply(c, s, labels[0]), labels[1..])
  }

  ghost predicate Reachable(c: Config, s: State) {
    exists labels :: Valid(c, INITIAL, labels) && s == Exec(c, INITIAL, labels)
  }
}
