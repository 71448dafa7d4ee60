// The event stream: the server's frames (resources/push.go) and the bundled client's line loop
// (bin/notifications-push-client/client.go), which undoes them.
module Stream {

  import opened Basics
  import opened Text

  const HEARTBEAT_MSG := "[]"
  const DATA_FIELD := "data: "

  /** The bytes the server writes for one message. */
  function FrameOf(body: string): string {
    DATA_FIELD + body + "\n\n"
  }

  function Frames(bodies: seq<string>): string {
    if bodies == [] then "" else FrameOf(bodies[0]) + Frames(bodies[1..])
  }

  // ---------------------------------------------------------------- the client

  /** The data of a line, or None for a line the client passes over. */
  function LineData(line: string): Option<string> {
    var trimmed := TrimSpace(line);
    if trimmed == "" then None else Some(TrimPrefix(trimmed, DATA_FIELD))
  }

  /** The length of the first complete line, line feed included. */
  function LineLength(s: string): (length: Option<nat>)
    ensures length.Some? ==> 0 < length.value <= |s|
    decreases |s|
  {
    if s == "" then None
    else if s[0] == '\n' then Some(1)
    else match LineLength(s[1..]) case None => None case Some(k) => Some(k + 1)
  }

  function DataOf(line: string): seq<string> {
    match LineData(line) case None => [] case Some(data) => [data]
  }

  /** The data of every complete line. */
  function Decode(input: string): seq<string>
    decreases |input|
  {
    match LineLength(input)
    case None => []
    case Some(k) => DataOf(input[..k]) + Decode(input[k..])
  }

  /** The line ends at the first line feed. */
  lemma {:induction false} LineEndsAt(s: string, k: nat)
    requires k <= |s| && '\n' !in s[..k]
    ensures k == |s| ==> LineLength(s) == None
    ensures k < |s| && s[k] == '\n' ==> LineLength(s) == Some(k + 1)
    decreases |s|
  {
    if k > 0 {
      assert s[0] in s[..k];
      assert s[1..][..k - 1] == s[..k][1..];
      LineEndsAt(s[1..], k - 1);
    }
  }

  /** The client's read loop over the complete lines of its input. */
  method ReadEvents(input: string) returns (events: seq<string>)
    ensures events == Decode(input)
  {
    events := [];
    var rest := input;
    while true
      invariant events + Decode(rest) == Decode(input)
      decreases |rest|
    {
      ghost var unread := Decode(rest);
      var more, skip, data, after := NextLine(rest);
      if !more {
        return;
      }
      rest := after;
      if skip {
        continue;
      }
      assert events + ([data] + Decode(rest)) == events + [data] + Decode(rest);
      events := events + [data];
    }
  }

  /** Takes one complete line, if there is one, off the front of the input. */
  method NextLine(rest: string) returns (more: bool, skip: bool, data: string, after: string)
    ensures !more ==> Decode(rest) == []
    ensures more ==> |after| < |rest|
    ensures more && skip ==> Decode(rest) == Decode(after)
    ensures more && !skip ==> Decode(rest) == [data] + Decode(after)
  {
    var event, ok := ReadString(rest);
    if !ok {
      return false, true, "", rest;
    }
    more, after := true, rest[|event|..];
    skip, data := ReadLine(event);
  }

  /** What one line says: nothing when it is blank, else its text without the field name. */
  method ReadLine(event: string) returns (skip: bool, data: string)
    ensures DataOf(event) == if skip then [] else [data]
    ensures skip <==> TrimSpace(event) == ""
    ensures !skip ==> data == if "data: " <= TrimSpace(event) then TrimSpace(event)[6..] else TrimSpace(event)
  {
    var trimmed := TrimSpace(event);
    if trimmed == "" {
      return true, "";
    }
    return false, TrimPrefix(trimmed, DATA_FIELD);
  }

  /** Reads up to and including the next line feed. */
  method ReadString(rest: string) returns (line: string, ok: bool)
    ensures ok <==> LineLength(rest).Some?
    ensures ok ==> |line| <= |rest| && line == rest[..|line|] && LineLength(rest) == Some(|line|)
  {
    var end := 0;
    while end < |rest| && rest[end] != '\n'
      invariant 0 <= end <= |rest|
      invariant '\n' !in rest[..end]
    {
      end := end + 1;
    }
    LineEndsAt(rest, end);
    if end == |rest| {
      return "", false;
    }
    return rest[..end + 1], true;
  }

  // ---------------------------------------------------------------- round trip

  /** A bracketed text on one line, as a JSON array is encoded. */
  predicate IsBracketedLine(s: string) {
    |s| >= 2 && s[0] == '[' && s[|s| - 1] == ']' && '\n' !in s
  }

  /** The message itself, without the line feed an encoder may leave at its end. */
  function Chomp(body: string): string {
    if body != "" && body[|body| - 1] == '\n' then body[..|body| - 1] else body
  }

  predicate IsBody(body: string) {
    IsBracketedLine(Chomp(body))
  }

  lemma TrimmedLine(data: string)
    requires IsBracketedLine(data)
    ensures LineData(DATA_FIELD + data + "\n") == Some(data)
  {
    var line := DATA_FIELD + data + "\n";
    assert TrimLeft(line) == line;
    var bare := line[..|line| - 1];
    assert bare == DATA_FIELD + data;
    assert bare[|bare| - 1] == ']';
    assert TrimRight(line) == TrimRight(bare) == bare;
    assert bare[..|DATA_FIELD|] == DATA_FIELD && bare[|DATA_FIELD|..] == data;
  }

  lemma BlankLine()
    ensures LineData("\n") == None
  {
  }

  lemma DecodeLine(text: string, rest: string)
    requires '\n' !in text
    ensures Decode(text + "\n" + rest) == DataOf(text + "\n") + Decode(rest)
  {
    var line := text + "\n";
    var input := line + rest;
    assert input[..|text|] == text;
    LineEndsAt(input, |text|);
    assert input[..|line|] == line && input[|line|..] == rest;
  }

  lemma DecodeBlank(rest: string)
    ensures Decode("\n" + rest) == Decode(rest)
  {
    DecodeLine("", rest);
    BlankLine();
    assert "" + "\n" == "\n";
  }

  lemma DecodeData(data: string, rest: string)
    requires IsBracketedLine(data)
    ensures Decode(DATA_FIELD + data + "\n" + rest) == [data] + Decode(rest)
  {
    DecodeLine(DATA_FIELD + data, rest);
    TrimmedLine(data);
  }

  /** A frame is one data line and one or two blank ones. */
  lemma FrameLines(body: string, rest: string)
    requires IsBody(body)
    ensures FrameOf(body) + rest == DATA_FIELD + Chomp(body) + "\n" + ("\n" + rest)
         || FrameOf(body) + rest == DATA_FIELD + Chomp(body) + "\n" + ("\n" + ("\n" + rest))
  {
  }

  lemma DecodeBlanks(rest: string)
    ensures Decode("\n" + rest) == Decode(rest)
    ensures Decode("\n" + ("\n" + rest)) == Decode(rest)
  {
    DecodeBlank(rest);
    DecodeBlank("\n" + rest);
  }

  lemma DecodeFrame(body: string, rest: string)
    requires IsBody(body)
    ensures Decode(FrameOf(body) + rest) == [Chomp(body)] + Decode(rest)
  {
    FrameLines(body, rest);
    DecodeBlanks(rest);
    DecodeData(Chomp(body), "\n" + rest);
    DecodeData(Chomp(body), "\n" + ("\n" + rest));
  }

  function Chomped(bodies: seq<string>): seq<string> {
    Map(Chomp, bodies)
  }

  /** The client reads back exactly the messages the server framed, heartbeats included. */
  lemma {:induction false} StreamRoundTrip(bodies: seq<string>)
    requires forall b :: b in bodies ==> IsBody(b)
    ensures Decode(Frames(bodies)) == Chomped(bodies)
  {
    if bodies != [] {
      DecodeFrame(bodies[0], Frames(bodies[1..]));
      StreamRoundTrip(bodies[1..]);
      assert Chomped(bodies) == [Chomp(bodies[0])] + Chomped(bodies[1..]);
    }
  }

  lemma DecodeFrameThen(body: string, more: string, rest: string)
    requires IsBody(body)
    ensures Decode(FrameOf(body) + more + rest) == [Chomp(body)] + Decode(more + rest)
  {
    assert FrameOf(body) + more + rest == FrameOf(body) + (more + rest);
    DecodeFrame(body, more + rest);
  }

  lemma ChompedFirst(bodies: seq<string>, more: seq<string>)
    requires bodies != []
    ensures [Chomp(bodies[0])] + (Chomped(bodies[1..]) + more) == Chomped(bodies) + more
  {
    assert Chomped(bodies) == [Chomp(bodies[0])] + Chomped(bodies[1..]);
  }

  lemma {:induction false} StreamContinues(bodies: seq<string>, rest: string)
    requires forall b :: b in bodies ==> IsBody(b)
    ensures Decode(Frames(bodies) + rest) == Chomped(bodies) + Decode(rest)
  {
    if bodies == [] {
      assert "" + rest == rest;
    } else {
      DecodeFrameThen(bodies[0], Frames(bodies[1..]), rest);
      StreamContinues(bodies[1..], rest);
      ChompedFirst(bodies, Decode(rest));
    }
  }

  lemma NoLineYet(part: string)
    requires '\n' !in part
    ensures Decode(part) == []
  {
    assert part[..|part|] == part;
    LineEndsAt(part, |part|);
  }

  /** Line feeds alone say nothing. */
  lemma BlanksSayNothing(rest: string)
    requires rest == "" || rest == "\n" || rest == "\n\n"
    ensures Decode(rest) == []
  {
    NoLineYet("");
    DecodeBlanks("");
    assert "\n" + "" == "\n" && "\n" + ("\n" + "") == "\n\n";
  }

  lemma CutAfterLine(frame: string, line: string, part: string)
    requires part <= frame && |part| > |line|
    requires frame == line + "\n" + ("\n" + "") || frame == line + "\n" + ("\n" + ("\n" + ""))
    ensures var rest := part[|line| + 1..];
      part == line + "\n" + rest && (rest == "" || rest == "\n" || rest == "\n\n")
  {
    assert frame[..|line| + 1] == line + "\n";
    assert part[..|line| + 1] == frame[..|line| + 1];
  }

  lemma CutInLine(frame: string, line: string, part: string)
    requires part <= frame && |part| <= |line| && line <= frame && '\n' !in line
    ensures '\n' !in part
  {
    assert part == line[..|part|];
  }

  /** The beginning of a frame says its message exactly when its first line is complete. */
  lemma CutFrame(body: string, part: string)
    requires IsBody(body) && part <= FrameOf(body)
    ensures Decode(part) == if |part| > |DATA_FIELD + Chomp(body)| then [Chomp(body)] else []
  {
    var frame, line := FrameOf(body), DATA_FIELD + Chomp(body);
    FrameLines(body, "");
    assert frame + "" == frame;
    if |part| > |line| {
      CutAfterLine(frame, line, part);
      DecodeData(Chomp(body), part[|line| + 1..]);
      BlanksSayNothing(part[|line| + 1..]);
    } else {
      CutInLine(frame, line, part);
      NoLineYet(part);
    }
  }

  /** A stream cut off inside its last frame. */
  lemma CutStream(bodies: seq<string>, body: string, part: string)
    requires (forall b :: b in bodies ==> IsBody(b)) && IsBody(body) && part <= FrameOf(body)
    ensures Decode(Frames(bodies) + part) ==
            Chomped(bodies) + if |part| > |DATA_FIELD + Chomp(body)| then [Chomp(body)] else []
  {
    StreamContinues(bodies, part);
    CutFrame(body, part);
  }

  lemma HeartbeatIsBody()
    ensures IsBody(HEARTBEAT_MSG) && Chomp(HEARTBEAT_MSG) == HEARTBEAT_MSG
  {
  }
}
