// One subscription's stream handler and its heartbeat timer (resources/push.go).
//
// The timer follows Go 1.21: an expiry puts a token into a one-slot channel, Stop reports whether
// it prevented the expiry, and neither Stop nor Reset touches a token already in the channel.
module Handler {

  import opened Basics

  datatype TimerState = Armed(deadline: int) | Expired | Disarmed

  datatype Timer = Timer(state: TimerState, token: bool)

  datatype Content<E> = Beat | Note(note: E)

  /** A message written to the stream, when, and when the timer had last been started anew. */
  datatype Frame<E> = Frame(at: int, since: int, content: Content<E>)

  /** Where the handler is in its code. */
  datatype Phase<E> =
    | Subscribing                 // waiting for the dispatcher's write lock
    | Starting                    // registered, timer not yet created
    | Greeting                    // about to write the first heartbeat
    | Selecting                   // at the head of the loop
    | Writing(note: E)            // received a notification, writing it
    | StoppingTimer               // wrote a notification, about to stop the timer
    | Draining                    // Stop came too late: receiving from the timer's channel
    | Rearming                    // about to reset the timer
    | Beating                     // received a token, writing a heartbeat
    | RearmingBeat                // wrote a heartbeat, about to reset the timer
    | Closing(lost: Option<E>)    // returned; waiting for the write lock to unregister
    | Gone(lost: Option<E>)       // unregistered

  datatype Handler<E> = Handler(phase: Phase<E>, timer: Timer, createdAt: int, resetAt: int, frames: seq<Frame<E>>)

  datatype Action<E> =
    | Listen
    | Greet(ok: bool)
    | Take(note: E)
    | Write(ok: bool)
    | StopTimer
    | Drain
    | Rearm
    | TakeToken
    | WriteBeat(ok: bool)
    | RearmBeat
    | Cancel
    | Fire

  function Fresh<E>(): Handler<E> {
    Handler(Subscribing, Timer(Disarmed, false), 0, 0, [])
  }

  /** Whether the handler, or its timer, can take this step now. */
  predicate CanAct<E>(now: int, h: Handler<E>, a: Action<E>) {
    match a
    case Listen => h.phase.Starting?
    case Greet(_) => h.phase.Greeting?
    case Take(_) => h.phase.Selecting?
    case Write(_) => h.phase.Writing?
    case StopTimer => h.phase.StoppingTimer?
    case Drain => h.phase.Draining? && h.timer.token
    case Rearm => h.phase.Rearming?
    case TakeToken => h.phase.Selecting? && h.timer.token
    case WriteBeat(_) => h.phase.Beating?
    case RearmBeat => h.phase.RearmingBeat?
    case Cancel => h.phase.Selecting?
    case Fire => h.timer.state.Armed? && now >= h.timer.state.deadline
  }

  function Wrote<E>(now: int, h: Handler<E>, content: Content<E>, next: Phase<E>): Handler<E> {
    h.(frames := h.frames + [Frame(now, h.resetAt, content)], phase := next)
  }

  function Act<E>(period: int, now: int, h: Handler<E>, a: Action<E>): Handler<E>
    requires CanAct(now, h, a)
  {
    match a
    case Listen => h.(phase := Greeting, timer := Timer(Armed(now + period), false), createdAt := now, resetAt := now)
    case Greet(ok) => if ok then Wrote(now, h, Beat, Selecting) else h.(phase := Closing(None))
    case Take(note) => h.(phase := Writing(note))
    case Write(ok) =>
      if ok then Wrote(now, h, Note(h.phase.note), StoppingTimer)
      else h.(phase := Closing(Some(h.phase.note)))
    case StopTimer =>
      if h.timer.state.Armed? then h.(timer := h.timer.(state := Disarmed), phase := Rearming)
      else h.(phase := Draining)
    case Drain => h.(timer := h.timer.(token := false), phase := Rearming)
    case Rearm => h.(timer := h.timer.(state := Armed(now + period)), resetAt := now, phase := Selecting)
    case TakeToken => h.(timer := h.timer.(token := false), phase := Beating)
    case WriteBeat(ok) => if ok then Wrote(now, h, Beat, RearmingBeat) else h.(phase := Closing(None))
    case RearmBeat => h.(timer := h.timer.(state := Armed(now + period)), resetAt := now, phase := Selecting)
    case Cancel => h.(phase := Closing(None))
    case Fire => h.(timer := Timer(Expired, true))
  }

  // ---------------------------------------------------------------- timer safety

  /** Either waiting with an empty channel, or gone off with exactly the one token to show for it. */
  predicate TimerIntact(t: Timer) {
    (t.state.Armed? && !t.token) || (t.state.Expired? && t.token)
  }

  /** What the next frame's period must not start before: the last frame but the greeting. */
  function Mark<E>(createdAt: int, frames: seq<Frame<E>>): int {
    if |frames| <= 1 then createdAt else frames[|frames| - 1].at
  }

  predicate TimerFits<E>(h: Handler<E>) {
    match h.phase
    case Subscribing => h.timer == Timer(Disarmed, false)
    case Starting => h.timer == Timer(Disarmed, false)
    case Greeting => TimerIntact(h.timer)
    case Selecting => TimerIntact(h.timer)
    case Writing(_) => TimerIntact(h.timer)
    case StoppingTimer => TimerIntact(h.timer)
    case Draining => h.timer == Timer(Expired, true)
    case Rearming => !h.timer.token && !h.timer.state.Armed?
    case Beating => h.timer == Timer(Expired, false)
    case RearmingBeat => h.timer == Timer(Expired, false)
    case Closing(_) => true
    case Gone(_) => true
  }

  /** The timer is due exactly one period past its last reset, and has not gone off earlier. */
  predicate TimerSet<E>(period: int, now: int, h: Handler<E>) {
    match h.timer.state
    case Armed(deadline) => deadline == h.resetAt + period
    case Expired => now >= h.resetAt + period
    case Disarmed => true
  }

  /** Outside the branch that is about to reset it, the timer was reset after the last frame. */
  predicate ResetFresh<E>(h: Handler<E>) {
    h.phase.Greeting? || h.phase.Selecting? || h.phase.Writing? || h.phase.Beating? ==>
      h.resetAt >= Mark(h.createdAt, h.frames)
  }

  /**
   * The stream opens with a heartbeat. Before every other frame the timer was started anew, no
   * earlier than the frame before it (or than the timer's creation, before the second frame), and
   * a heartbeat keeps a full period from that start.
   */
  predicate Spaced<E>(period: int, createdAt: int, frames: seq<Frame<E>>) {
    && (frames != [] ==> frames[0].content == Beat)
    && forall i :: 1 <= i < |frames| ==> SpacedAt(period, createdAt, frames, i)
  }

  predicate SpacedAt<E>(period: int, createdAt: int, frames: seq<Frame<E>>, i: nat)
    requires 1 <= i < |frames|
  {
    && frames[i].since >= (if i == 1 then createdAt else frames[i - 1].at)
    && (frames[i].content == Beat ==> frames[i].at >= frames[i].since + period)
  }

  predicate NothingWritten<E>(h: Handler<E>) {
    h.phase.Subscribing? || h.phase.Starting? || h.phase.Greeting? ==> h.frames == []
  }

  predicate Greeted<E>(h: Handler<E>) {
    && (h.phase.Selecting? || h.phase.Writing? || h.phase.Beating? ==> |h.frames| >= 1)
    && (h.phase.StoppingTimer? || h.phase.Draining? || h.phase.Rearming? || h.phase.RearmingBeat? ==> |h.frames| >= 2)
  }

  predicate Healthy<E>(period: int, now: int, h: Handler<E>) {
    && TimerFits(h)
    && TimerSet(period, now, h)
    && ResetFresh(h)
    && Spaced(period, h.createdAt, h.frames)
    && NothingWritten(h)
    && Greeted(h)
    && (|h.frames| > 0 ==> h.frames[|h.frames| - 1].at <= now)
  }

  lemma FreshIsHealthy<E>(period: int, now: int)
    ensures Healthy(period, now, Fresh<E>())
  {
  }

  /** Every step of the handler and of its timer keeps the handler healthy. */
  lemma ActKeepsHealthy<E>(period: int, now: int, h: Handler<E>, a: Action<E>)
    requires Healthy(period, now, h) && CanAct(now, h, a)
    ensures Healthy(period, now, Act(period, now, h, a))
  {
    if a == Greet(true) || a == Write(true) || a == WriteBeat(true) {
      SpacedAppend(period, h.createdAt, h.frames, Frame(now, h.resetAt, if a.Write? then Note(h.phase.note) else Beat));
    }
  }

  lemma SpacedAppend<E>(period: int, createdAt: int, frames: seq<Frame<E>>, f: Frame<E>)
    requires Spaced(period, createdAt, frames)
    requires frames == [] ==> f.content == Beat
    requires frames != [] ==> f.since >= Mark(createdAt, frames) && (f.content == Beat ==> f.at >= f.since + period)
    ensures Spaced(period, createdAt, frames + [f])
  {
    forall i | 1 <= i < |frames + [f]|
      ensures SpacedAt(period, createdAt, frames + [f], i)
    {
      assert i < |frames| ==> SpacedAt(period, createdAt, frames, i);
    }
  }

  lemma TimeKeepsHealthy<E>(period: int, now: int, later: int, h: Handler<E>)
    requires Healthy(period, now, h) && now <= later
    ensures Healthy(period, later, h)
  {
  }

  /** A heartbeat is written a full period, or more, after the timer's last reset. */
  lemma BeatIsDue<E>(period: int, now: int, h: Handler<E>)
    requires Healthy(period, now, h) && CanAct(now, h, WriteBeat(true))
    ensures now >= h.resetAt + period && h.resetAt >= Mark(h.createdAt, h.frames)
    ensures Act(period, now, h, WriteBeat(true)).frames == h.frames + [Frame(now, h.resetAt, Beat)]
  {
  }

  /** The drain after a late Stop finds its token: it can never block. */
  lemma DrainNeverBlocks<E>(period: int, now: int, h: Handler<E>)
    requires Healthy(period, now, h) && h.phase.Draining?
    ensures CanAct(now, h, Drain)
  {
  }

  /** A handler returns on a failed write and on cancellation, and on nothing else. */
  lemma ExitPaths<E>(period: int, now: int, h: Handler<E>, a: Action<E>)
    requires CanAct(now, h, a) && !h.phase.Closing?
    ensures Act(period, now, h, a).phase.Closing? <==>
            a == Greet(false) || a == Write(false) || a == WriteBeat(false) || a == Cancel
  {
  }

  // ---------------------------------------------------------------- what was taken, where it is

  /** The notifications among some frames, in order. */
  function NotesOf<E>(frames: seq<Frame<E>>): seq<E> {
    if frames == [] then []
    else
      var last := frames[|frames| - 1];
      NotesOf(frames[..|frames| - 1]) + match last.content case Beat => [] case Note(note) => [note]
  }

  /** The notification taken from the channel and not written, if any. */
  function InHand<E>(h: Handler<E>): seq<E> {
    match h.phase
    case Writing(note) => [note]
    case Closing(lost) => (match lost case None => [] case Some(note) => [note])
    case Gone(lost) => (match lost case None => [] case Some(note) => [note])
    case _ => []
  }

  /** Everything this handler ever took from its channel. */
  function Taken<E>(h: Handler<E>): seq<E> {
    NotesOf(h.frames) + InHand(h)
  }

  lemma NotesAppend<E>(frames: seq<Frame<E>>, f: Frame<E>)
    ensures NotesOf(frames + [f]) == NotesOf(frames) + match f.content case Beat => [] case Note(note) => [note]
  {
  }

  /** Only a successful write of a notification adds one to the stream. */
  lemma ActWrites<E>(period: int, now: int, h: Handler<E>, a: Action<E>)
    requires CanAct(now, h, a)
    ensures NotesOf(Act(period, now, h, a).frames) ==
            NotesOf(h.frames) + if a == Write(true) then [h.phase.note] else []
  {
  }

  lemma ActHolds<E>(period: int, now: int, h: Handler<E>, a: Action<E>)
    requires CanAct(now, h, a)
    ensures InHand(Act(period, now, h, a)) ==
            match a case Take(note) => [note] case Write(ok) => if ok then [] else [h.phase.note] case _ => InHand(h)
    ensures a.Write? ==> InHand(h) == [h.phase.note]
    ensures a.Take? ==> InHand(h) == []
  {
  }

  /** A notification leaves the channel only when taken, and is then written or in hand. */
  lemma ActTakes<E>(period: int, now: int, h: Handler<E>, a: Action<E>)
    requires CanAct(now, h, a)
    ensures Taken(Act(period, now, h, a)) == Taken(h) + match a case Take(note) => [note] case _ => []
  {
    ActWrites(period, now, h, a);
    ActHolds(period, now, h, a);
  }

  // ---------------------------------------------------------------- runs of one handler

  /** Time passes, or the handler or its timer takes a step. */
  datatype Move<E> = Elapse(dt: nat) | Do(action: Action<E>)

  ghost predicate Leads<E>(period: int, now: int, h: Handler<E>, moves: seq<Move<E>>, later: int, after: Handler<E>)
    decreases |moves|
  {
    if moves == [] then later == now && after == h
    else
      match moves[0]
      case Elapse(dt) => Leads(period, now + dt, h, moves[1..], later, after)
      case Do(a) => CanAct(now, h, a) && Leads(period, now, Act(period, now, h, a), moves[1..], later, after)
  }

  /** Steps and the passing of time lead from one situation to another. */
  ghost predicate Reaches<E(!new)>(period: int, now: int, h: Handler<E>, later: int, after: Handler<E>) {
    exists moves :: Leads(period, now, h, moves, later, after)
  }

  lemma {:induction false} LeadsFurther<E>(period: int, now: int, h: Handler<E>, moves: seq<Move<E>>, later: int,
                                           after: Handler<E>, move: Move<E>)
    requires Leads(period, now, h, moves, later, after)
    requires move.Do? ==> CanAct(later, after, move.action)
    ensures move.Elapse? ==> Leads(period, now, h, moves + [move], later + move.dt, after)
    ensures move.Do? ==> Leads(period, now, h, moves + [move], later, Act(period, later, after, move.action))
    decreases |moves|
  {
    if moves == [] {
      assert moves + [move] == [move] && [move][1..] == [];
    } else {
      var next := if moves[0].Do? then Act(period, now, h, moves[0].action) else h;
      LeadsFurther(period, if moves[0].Elapse? then now + moves[0].dt else now, next, moves[1..], later, after, move);
      assert (moves + [move])[1..] == moves[1..] + [move];
    }
  }

  lemma Stay<E(!new)>(period: int, now: int, h: Handler<E>)
    ensures Reaches(period, now, h, now, h)
  {
    assert Leads(period, now, h, [], now, h);
  }

  lemma Then<E(!new)>(period: int, now: int, h: Handler<E>, later: int, after: Handler<E>, a: Action<E>)
    requires Reaches(period, now, h, later, after) && CanAct(later, after, a)
    ensures Reaches(period, now, h, later, Act(period, later, after, a))
  {
    var moves :| Leads(period, now, h, moves, later, after);
    LeadsFurther(period, now, h, moves, later, after, Do(a));
  }

  /** A timer that comes due while time passes goes off. */
  function DueBy(now: int, timer: Timer): Timer {
    if timer.state.Armed? && now >= timer.state.deadline then Timer(Expired, true) else timer
  }

  lemma Wait<E(!new)>(period: int, now: int, h: Handler<E>, later: int, after: Handler<E>, dt: nat)
    requires Reaches(period, now, h, later, after)
    ensures Reaches(period, now, h, later + dt, after.(timer := DueBy(later + dt, after.timer)))
  {
    var moves :| Leads(period, now, h, moves, later, after);
    LeadsFurther(period, now, h, moves, later, after, Elapse(dt));
    if CanAct(later + dt, after, Fire) {
      Then(period, now, h, later + dt, after, Fire);
    }
  }

  lemma {:induction false} LeadsKeepsHealthy<E>(period: int, now: int, h: Handler<E>, moves: seq<Move<E>>, later: int,
                                                after: Handler<E>)
    requires Leads(period, now, h, moves, later, after) && Healthy(period, now, h)
    ensures Healthy(period, later, after)
    decreases |moves|
  {
    if moves != [] {
      match moves[0]
      case Elapse(dt) =>
        TimeKeepsHealthy(period, now, now + dt, h);
        LeadsKeepsHealthy(period, now + dt, h, moves[1..], later, after);
      case Do(a) =>
        ActKeepsHealthy(period, now, h, a);
        LeadsKeepsHealthy(period, now, Act(period, now, h, a), moves[1..], later, after);
    }
  }
}
