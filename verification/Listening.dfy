// The loop of one stream handler (resources/push.go, listenForNotifications), run against a script
// of what its surroundings do: how time passes, which channel is ready, whether writes succeed.
// Every turn is proved to be a sequence of steps of the step machine in module Handler.
module Listening {

  import opened Basics
  import opened Handler

  /** One turn of the loop as its surroundings decide it. */
  datatype Turn<E> =
    | Notified(note: E, idle: nat, writing: nat, lag: nat, ok: bool)
    | Quiet(idle: nat, writing: nat, lag: nat, ok: bool)
    | Cancelled

  class HeartbeatTimer {

    var now: int
    var state: TimerState
    var token: bool
    var resetAt: int             // when the timer was last created or reset

    ghost function Value(): Timer
      reads this
    {
      Timer(state, token)
    }

    constructor (start: int, period: int)
      ensures now == resetAt == start && Value() == Timer(Armed(start + period), false)
    {
      now, resetAt := start, start;
      state := Armed(start + period);
      token := false;
    }

    /** Time passes; a timer that comes due expires and puts its token into the channel. */
    method Advance(dt: nat)
      modifies this
      ensures now == old(now) + dt && resetAt == old(resetAt)
      ensures Value() == DueBy(now, old(Value()))
    {
      now := now + dt;
      if state.Armed? && now >= state.deadline {
        state := Expired;
        token := true;
      }
    }

    method Stop() returns (active: bool)
      modifies this
      ensures now == old(now) && resetAt == old(resetAt) && active == old(state).Armed?
      ensures Value() == if active then Timer(Disarmed, old(token)) else old(Value())
    {
      active := state.Armed?;
      if active {
        state := Disarmed;
      }
    }

    /** A receive from the timer's channel; without a token it would wait for ever. */
    method Receive()
      requires token
      modifies this
      ensures now == old(now) && resetAt == old(resetAt) && Value() == Timer(old(state), false)
    {
      token := false;
    }

    method Reset(period: int)
      modifies this
      ensures now == old(now) == resetAt && Value() == Timer(Armed(now + period), old(token))
    {
      state, resetAt := Armed(now + period), now;
    }
  }

  /** Whether the handler returns on this turn. */
  predicate Ends<E>(turn: Turn<E>) {
    match turn
    case Notified(_, _, _, _, ok) => !ok
    case Quiet(_, _, _, ok) => !ok
    case Cancelled => true
  }

  function NoteIn<E>(turn: Turn<E>): seq<E> {
    match turn case Notified(note, _, _, _, _) => [note] case _ => []
  }

  /** What the stream should show for one turn. */
  function ShownBy<E>(turn: Turn<E>): seq<Content<E>> {
    if Ends(turn) then [] else match turn case Notified(note, _, _, _, _) => [Note(note)] case _ => [Beat]
  }

  /** What the stream should show after the greeting: every turn up to the one that ends the loop. */
  function Shown<E>(script: seq<Turn<E>>): seq<Content<E>> {
    if script == [] then []
    else ShownBy(script[0]) + if Ends(script[0]) then [] else Shown(script[1..])
  }

  /** The notifications received up to the turn that ends the loop, that turn included. */
  function NotesIn<E>(script: seq<Turn<E>>): seq<E> {
    if script == [] then []
    else NoteIn(script[0]) + if Ends(script[0]) then [] else NotesIn(script[1..])
  }

  function Contents<E>(frames: seq<Frame<E>>): seq<Content<E>> {
    Map((f: Frame<E>) => f.content, frames)
  }

  // ---------------------------------------------------------------- the step machine alongside

  /** The step machine's view of a place in the loop. */
  ghost function At<E>(phase: Phase<E>, timer: HeartbeatTimer, start: int, frames: seq<Frame<E>>): Handler<E>
    reads timer
  {
    Handler(phase, timer.Value(), start, timer.resetAt, frames)
  }

  function Started<E>(): Handler<E> {
    Fresh<E>().(phase := Starting)
  }

  /** Steps of the step machine, started at `start`, lead to this place in the loop. */
  ghost predicate Tracks<E(!new)>(phase: Phase<E>, timer: HeartbeatTimer, period: int, start: int,
                                  frames: seq<Frame<E>>)
    reads timer
  {
    Reaches(period, start, Started<E>(), timer.now, At(phase, timer, start, frames))
  }

  lemma TracksHealthy<E(!new)>(phase: Phase<E>, timer: HeartbeatTimer, period: int, start: int, frames: seq<Frame<E>>)
    requires Tracks(phase, timer, period, start, frames)
    ensures Healthy(period, timer.now, At(phase, timer, start, frames))
  {
    var h := At(phase, timer, start, frames);
    var moves :| Leads(period, start, Started<E>(), moves, timer.now, h);
    LeadsKeepsHealthy(period, start, Started<E>(), moves, timer.now, h);
  }

  /** Time passes at one place in the code. */
  method Pause<E(!new)>(timer: HeartbeatTimer, ghost period: int, ghost start: int, ghost phase: Phase<E>,
                        ghost frames: seq<Frame<E>>, dt: nat)
    requires Tracks(phase, timer, period, start, frames)
    modifies timer
    ensures Tracks(phase, timer, period, start, frames)
    ensures timer.now == old(timer.now) + dt && timer.resetAt == old(timer.resetAt)
    ensures timer.Value() == DueBy(timer.now, old(timer.Value()))
  {
    Wait(period, start, Started<E>(), timer.now, At(phase, timer, start, frames), dt);
    timer.Advance(dt);
  }

  /** Time passes until the timer's channel holds a token: until a period after the last reset, or not at all. */
  method AwaitToken<E(!new)>(timer: HeartbeatTimer, ghost period: int, ghost start: int, ghost frames: seq<Frame<E>>)
    requires Tracks(Selecting, timer, period, start, frames)
    modifies timer
    ensures Tracks(Selecting, timer, period, start, frames)
    ensures timer.Value() == Timer(Expired, true) && timer.resetAt == old(timer.resetAt)
    ensures timer.now == Max(old(timer.now), old(timer.resetAt) + period)
  {
    TracksHealthy(Selecting, timer, period, start, frames);
    if timer.state.Armed? {
      var remaining := timer.state.deadline - timer.now;
      Pause(timer, period, start, Selecting, frames, if remaining > 0 then remaining else 0);
    }
  }

  /** Stops the timer, drains the token it left if it was too late, and starts it anew. */
  method Restart<E(!new)>(timer: HeartbeatTimer, period: int, ghost start: int, ghost frames: seq<Frame<E>>)
    requires Tracks(StoppingTimer, timer, period, start, frames)
    modifies timer
    ensures Tracks(Selecting, timer, period, start, frames)
    ensures timer.now == old(timer.now) == timer.resetAt && timer.Value() == Timer(Armed(timer.now + period), false)
  {
    TracksHealthy(StoppingTimer, timer, period, start, frames);
    Then(period, start, Started<E>(), timer.now, At(StoppingTimer, timer, start, frames), StopTimer);
    var active := timer.Stop();
    if !active {
      Then(period, start, Started<E>(), timer.now, At(Draining, timer, start, frames), Drain);
      timer.Receive();
    }
    Then(period, start, Started<E>(), timer.now, At(Rearming, timer, start, frames), Rearm);
    timer.Reset(period);
  }

  lemma ContentsAppend<E>(frames: seq<Frame<E>>, f: Frame<E>)
    ensures Contents(frames + [f]) == Contents(frames) + [f.content]
    ensures NotesOf(frames + [f]) == NotesOf(frames) + match f.content case Beat => [] case Note(note) => [note]
  {
    NotesAppend(frames, f);
  }

  /** When the last message was written. */
  function WrittenAt<E>(frames: seq<Frame<E>>): int {
    if frames == [] then 0 else frames[|frames| - 1].at
  }

  /** The branch of the loop that received a notification. */
  method WriteNotification<E(!new)>(timer: HeartbeatTimer, period: int, ghost start: int, frames: seq<Frame<E>>,
                                    note: E, writing: nat, lag: nat, ok: bool)
    returns (written: seq<Frame<E>>, lost: seq<E>)
    requires Tracks(Writing(note), timer, period, start, frames)
    modifies timer
    ensures Tracks(if ok then Selecting else Closing(Some(note)), timer, period, start, written)
    ensures Contents(written) == Contents(frames) + if ok then [Note(note)] else []
    ensures NotesOf(written) == NotesOf(frames) + if ok then [note] else []
    ensures ok ==> WrittenAt(written) == old(timer.now) + writing
    ensures ok ==> timer.now == timer.resetAt == WrittenAt(written) + lag
    ensures lost == if ok then [] else [note]
  {
    Pause(timer, period, start, Writing(note), frames, writing);
    Then(period, start, Started<E>(), timer.now, At(Writing(note), timer, start, frames), Write(ok));
    if !ok {
      return frames, [note];
    }
    ContentsAppend(frames, Frame(timer.now, timer.resetAt, Note(note)));
    written, lost := frames + [Frame(timer.now, timer.resetAt, Note(note))], [];
    Pause(timer, period, start, StoppingTimer, written, lag);
    Restart(timer, period, start, written);
  }

  /** The branch of the loop that received the timer's token. */
  method WriteHeartbeat<E(!new)>(timer: HeartbeatTimer, period: int, ghost start: int, frames: seq<Frame<E>>,
                                 writing: nat, lag: nat, ok: bool)
    returns (written: seq<Frame<E>>)
    requires Tracks(Beating, timer, period, start, frames)
    modifies timer
    ensures Tracks(if ok then Selecting else Closing(None), timer, period, start, written)
    ensures Contents(written) == Contents(frames) + if ok then [Beat] else []
    ensures NotesOf(written) == NotesOf(frames)
    ensures ok ==> WrittenAt(written) == old(timer.now) + writing
    ensures ok ==> timer.now == timer.resetAt == WrittenAt(written) + lag
  {
    Pause(timer, period, start, Beating, frames, writing);
    Then(period, start, Started<E>(), timer.now, At(Beating, timer, start, frames), WriteBeat(ok));
    if !ok {
      return frames;
    }
    ContentsAppend(frames, Frame(timer.now, timer.resetAt, Beat));
    written := frames + [Frame(timer.now, timer.resetAt, Beat)];
    Pause(timer, period, start, RearmingBeat, written, lag);
    Then(period, start, Started<E>(), timer.now, At(RearmingBeat, timer, start, written), RearmBeat);
    timer.Reset(period);
  }

  /** Where the handler is after a turn. */
  function PhaseAfter<E>(turn: Turn<E>): Phase<E> {
    if !Ends(turn) then Selecting
    else match turn case Notified(note, _, _, _, _) => Closing(Some(note)) case _ => Closing(None)
  }

  /** One turn of the loop: a sequence of steps of the handler, its timer and the clock. */
  method TakeTurn<E(!new)>(timer: HeartbeatTimer, period: int, ghost start: int, frames: seq<Frame<E>>, turn: Turn<E>)
    returns (written: seq<Frame<E>>, lost: seq<E>)
    requires Tracks(Selecting, timer, period, start, frames)
    modifies timer
    ensures Tracks(PhaseAfter(turn), timer, period, start, written)
    ensures lost == InHand(At(PhaseAfter(turn), timer, start, written)) && |lost| <= 1
    ensures Contents(written) == Contents(frames) + ShownBy(turn)
    ensures NotesOf(written) + lost == NotesOf(frames) + NoteIn(turn)
    ensures !Ends(turn) ==>
      && timer.now == timer.resetAt == WrittenAt(written) + turn.lag
      && WrittenAt(written) == turn.writing
           + if turn.Quiet? then Max(old(timer.now) + turn.idle, old(timer.resetAt) + period)
             else old(timer.now) + turn.idle
  {
    written, lost := frames, [];
    match turn
    case Notified(note, idle, writing, lag, ok) =>
      Pause(timer, period, start, Selecting, frames, idle);
      Then(period, start, Started<E>(), timer.now, At(Selecting, timer, start, frames), Take(note));
      written, lost := WriteNotification(timer, period, start, frames, note, writing, lag, ok);
    case Quiet(idle, writing, lag, ok) =>
      Pause(timer, period, start, Selecting, frames, idle);
      AwaitToken(timer, period, start, frames);
      Then(period, start, Started<E>(), timer.now, At(Selecting, timer, start, frames), TakeToken);
      timer.Receive();
      written := WriteHeartbeat(timer, period, start, frames, writing, lag, ok);
    case Cancelled =>
      Then(period, start, Started<E>(), timer.now, At(Selecting, timer, start, frames), Cancel);
  }

  lemma Regroup<T>(a: seq<T>, b: seq<T>, c: seq<T>)
    ensures a + (b + c) == a + b + c && b + [] == b
  {
  }

  /** One turn moves what it shows from the script to the stream. */
  lemma OneTurn<E>(content: seq<Content<E>>, notes: seq<E>, ahead: seq<Turn<E>>)
    requires ahead != []
    ensures Ends(ahead[0]) ==> content + Shown(ahead) == content + ShownBy(ahead[0])
    ensures Ends(ahead[0]) ==> notes + NotesIn(ahead) == notes + NoteIn(ahead[0])
    ensures !Ends(ahead[0]) ==> content + Shown(ahead) == content + ShownBy(ahead[0]) + Shown(ahead[1..])
    ensures !Ends(ahead[0]) ==> notes + NotesIn(ahead) == notes + NoteIn(ahead[0]) + NotesIn(ahead[1..])
  {
    Regroup(content, ShownBy(ahead[0]), Shown(ahead[1..]));
    Regroup(notes, NoteIn(ahead[0]), NotesIn(ahead[1..]));
  }

  /** The loop: turns are taken until one of them ends it. */
  method TakeTurns<E(!new)>(timer: HeartbeatTimer, period: int, ghost start: int, greeting: seq<Frame<E>>,
                            script: seq<Turn<E>>)
    returns (frames: seq<Frame<E>>, lost: seq<E>, ghost phase: Phase<E>)
    requires Tracks(Selecting, timer, period, start, greeting)
    modifies timer
    ensures Tracks(phase, timer, period, start, frames) && (phase.Selecting? || phase.Closing?)
    ensures lost == InHand(At(phase, timer, start, frames)) && |lost| <= 1
    ensures Contents(frames) == Contents(greeting) + Shown(script)
    ensures NotesOf(frames) + lost == NotesOf(greeting) + NotesIn(script)
  {
    frames, lost, phase := greeting, [], Selecting;
    var ahead := script;
    ghost var content, notes := Contents(greeting), NotesOf(greeting);
    ghost var allContent, allNotes := content + Shown(script), notes + NotesIn(script);
    while ahead != []
      invariant lost == [] && phase == Selecting && Tracks(Selecting, timer, period, start, frames)
      invariant content == Contents(frames) && notes == NotesOf(frames)
      invariant content + Shown(ahead) == allContent && notes + NotesIn(ahead) == allNotes
      decreases |ahead|
    {
      var turn := ahead[0];
      OneTurn(content, notes, ahead);
      frames, lost := TakeTurn(timer, period, start, frames, turn);
      phase := PhaseAfter(turn);
      if Ends(turn) {
        return;
      }
      ahead := ahead[1..];
      content, notes := content + ShownBy(turn), notes + NoteIn(turn);
    }
  }

  /** The stream and the lost notification are those of a run of the step machine up to here. */
  ghost predicate IsHandlerRun<E(!new)>(period: int, start: int, frames: seq<Frame<E>>, lost: seq<E>) {
    exists later, h: Handler<E> ::
      && Reaches(period, start, Started<E>(), later, h)
      && h.frames == frames && InHand(h) == lost && (h.phase.Selecting? || h.phase.Closing?)
  }

  /** The first two steps: the timer is created and the greeting written, or the write fails. */
  lemma Opening<E(!new)>(period: int, start: int)
    ensures var timer := Timer(Armed(start + period), false);
      && Reaches(period, start, Started<E>(), start, Handler(Closing(None), timer, start, start, []))
      && Reaches(period, start, Started<E>(), start,
                 Handler(Selecting, timer, start, start, [Frame(start, start, Beat)]))
  {
    Stay(period, start, Started<E>());
    Then(period, start, Started<E>(), start, Started<E>(), Listen);
    var h: Handler<E> := Act(period, start, Started<E>(), Listen);
    Then(period, start, Started<E>(), start, h, Greet(false));
    Then(period, start, Started<E>(), start, h, Greet(true));
    var f: Frame<E> := Frame(start, start, Beat);
    assert h.frames + [f] == [f];
  }

  lemma GreetingShows<E>(greeting: seq<Frame<E>>, f: Frame<E>)
    requires greeting == [f] && f.content == Beat
    ensures Contents(greeting) == [Beat] && NotesOf(greeting) == []
  {
    assert greeting[..0] == [];
  }

  /** Writes the first heartbeat and then takes the turns of the loop. */
  method Serve<E(!new)>(timer: HeartbeatTimer, period: int, start: int, greeted: bool, script: seq<Turn<E>>)
    returns (frames: seq<Frame<E>>, lost: seq<E>, ghost phase: Phase<E>)
    requires timer.now == timer.resetAt == start && timer.Value() == Timer(Armed(start + period), false)
    modifies timer
    ensures Tracks(phase, timer, period, start, frames) && (phase.Selecting? || phase.Closing?)
    ensures lost == InHand(At(phase, timer, start, frames)) && |lost| <= 1
    ensures !greeted ==> frames == [] && lost == []
    ensures greeted ==> Contents(frames) == [Beat] + Shown(script) && NotesOf(frames) + lost == NotesIn(script)
  {
    Opening<E>(period, start);
    if !greeted {
      return [], [], Closing(None);
    }
    var greeting: seq<Frame<E>> := [Frame(timer.now, timer.resetAt, Beat)];
    GreetingShows(greeting, greeting[0]);
    frames, lost, phase := TakeTurns(timer, period, start, greeting, script);
  }

  /**
   * Writes the stream: a heartbeat first, then every notification as it comes, and a heartbeat
   * after each full period without one, until a write fails or the request is cancelled.
   */
  method ListenForNotifications<E(!new)>(period: int, start: int, greeted: bool, script: seq<Turn<E>>)
    returns (frames: seq<Frame<E>>, lost: seq<E>)
    ensures IsHandlerRun(period, start, frames, lost)
    ensures Spaced(period, start, frames)
    ensures !greeted ==> frames == [] && lost == []
    ensures greeted ==>
      && Contents(frames) == [Beat] + Shown(script)
      && NotesOf(frames) + lost == NotesIn(script) && |lost| <= 1
  {
    var timer := new HeartbeatTimer(start, period);
    ghost var phase;
    frames, lost, phase := Serve(timer, period, start, greeted, script);
    TracksHealthy(phase, timer, period, start, frames);
  }
}
