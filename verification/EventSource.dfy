// A reader of event streams that knows nothing of this service: the interpretation of an event stream
// in section 9.2.6 of the WHATWG HTML Standard, as far as the data of the events goes.
module EventSource {

  import opened Stream

  /** How many characters stand before the first line end, or all there are. */
  function TextLength(s: string): (k: nat)
    ensures k <= |s|
    ensures k < |s| ==> s[k] == '\n' || s[k] == '\r'
  {
    if s == "" || s[0] == '\n' || s[0] == '\r' then 0 else 1 + TextLength(s[1..])
  }

  /** Where the next line begins; a carriage return and a line feed together end one line. */
  function NextLineAt(s: string, k: nat): (next: nat)
    requires k < |s|
    ensures k < next <= |s|
  {
    if s[k] == '\r' && k + 1 < |s| && s[k + 1] == '\n' then k + 2 else k + 1
  }

  function Colon(line: string): (k: nat)
    ensures k <= |line|
  {
    if line == "" || line[0] == ':' then 0 else 1 + Colon(line[1..])
  }

  /** The name of the line's field; a line that begins with a colon is a comment and has none. */
  function FieldName(line: string): string {
    line[..Colon(line)]
  }

  /** What follows the colon, without one leading space. */
  function FieldValue(line: string): string {
    if Colon(line) == |line| then ""
    else
      var value := line[Colon(line) + 1..];
      if value != "" && value[0] == ' ' then value[1..] else value
  }

  /** What a line adds to the data buffer. */
  function AddedData(line: string): string {
    if FieldName(line) == "data" then FieldValue(line) + "\n" else ""
  }

  /**
   * The data of the events dispatched: at every blank line the data buffer without its last line
   * feed, unless the buffer is empty; what is pending at the end is discarded.
   */
  function Events(s: string, buffer: string): seq<string>
    decreases |s|
  {
    var k := TextLength(s);
    if k == |s| then []
    else if k == 0 then
      (if buffer == "" then [] else [buffer[..|buffer| - 1]]) + Events(s[NextLineAt(s, k)..], "")
    else Events(s[NextLineAt(s, k)..], buffer + AddedData(s[..k]))
  }

  predicate OnOneLine(s: string) {
    '\n' !in s && '\r' !in s
  }

  lemma {:induction false} TextUpTo(text: string, rest: string)
    requires OnOneLine(text) && rest != "" && rest[0] == '\n'
    ensures TextLength(text + rest) == |text|
  {
    if text == "" {
      assert text + rest == rest;
    } else {
      assert (text + rest)[0] == text[0] && (text + rest)[1..] == text[1..] + rest;
      TextUpTo(text[1..], rest);
    }
  }

  lemma {:induction false} ColonAfter(name: string, rest: string)
    requires ':' !in name && rest != "" && rest[0] == ':'
    ensures Colon(name + rest) == |name|
  {
    if name == "" {
      assert name + rest == rest;
    } else {
      assert (name + rest)[0] == name[0] && (name + rest)[1..] == name[1..] + rest;
      ColonAfter(name[1..], rest);
    }
  }

  lemma BlankLine(rest: string, buffer: string)
    ensures Events("\n" + rest, buffer) == (if buffer == "" then [] else [buffer[..|buffer| - 1]]) + Events(rest, "")
  {
    var s := "\n" + rest;
    TextUpTo("", s);
    assert "" + s == s && s[1..] == rest;
  }

  lemma TextLine(text: string, rest: string, buffer: string)
    requires text != "" && OnOneLine(text)
    ensures Events(text + "\n" + rest, buffer) == Events(rest, buffer + AddedData(text))
  {
    var s := text + ("\n" + rest);
    TextUpTo(text, "\n" + rest);
    assert text + "\n" + rest == s && s[..|text|] == text && s[|text| + 1..] == rest;
  }

  /** A line "data: x" puts x into the data buffer. */
  lemma DataLine(data: string)
    ensures AddedData("data: " + data) == data + "\n"
  {
    var line, rest := "data: " + data, ": " + data;
    assert line == "data" + rest;
    ColonAfter("data", rest);
    assert line[..4] == "data" && line[5..] == " " + data && (" " + data)[1..] == data;
  }

  /** A data line and the blank line after it are one event. */
  lemma OneEvent(data: string, rest: string)
    requires OnOneLine(data)
    ensures Events("data: " + data + "\n" + ("\n" + rest), "") == [data] + Events(rest, "")
  {
    var buffer := data + "\n";
    DataLine(data);
    assert "" + buffer == buffer;
    TextLine("data: " + data, "\n" + rest, "");
    BlankLine(rest, buffer);
    assert buffer[..|buffer| - 1] == data;
  }

  lemma IdleBlankLine(rest: string)
    ensures Events("\n" + rest, "") == Events(rest, "")
  {
    BlankLine(rest, "");
  }

  /** One frame is one event: the data line, the blank line that dispatches it, perhaps one more. */
  lemma FrameIsEvent(body: string, rest: string)
    requires IsBody(body) && OnOneLine(Chomp(body))
    ensures Events(FrameOf(body) + rest, "") == [Chomp(body)] + Events(rest, "")
  {
    FrameLines(body, rest);
    OneEvent(Chomp(body), rest);
    OneEvent(Chomp(body), "\n" + rest);
    IdleBlankLine(rest);
  }

  /**
   * A standard reader is given exactly the messages, heartbeats included, one event each; the second
   * blank line adds none. Encoded JSON holds no bare carriage return (section 7 of RFC 8259).
   */
  lemma {:induction false} FramesAreEvents(bodies: seq<string>)
    requires forall b :: b in bodies ==> IsBody(b) && OnOneLine(Chomp(b))
    ensures Events(Frames(bodies), "") == Chomped(bodies)
  {
    if bodies != [] {
      FrameIsEvent(bodies[0], Frames(bodies[1..]));
      FramesAreEvents(bodies[1..]);
      ChompedFirst(bodies, []);
      assert Chomped(bodies[1..]) + [] == Chomped(bodies[1..]) && Chomped(bodies) + [] == Chomped(bodies);
    }
  }

  /** The first message of every stream, byte for byte. */
  lemma HeartbeatBytes()
    ensures FrameOf(HEARTBEAT_MSG) == "data: []\n\n"
    ensures Events(FrameOf(HEARTBEAT_MSG), "") == ["[]"]
  {
    HeartbeatIsBody();
    FrameIsEvent(HEARTBEAT_MSG, "");
    assert FrameOf(HEARTBEAT_MSG) + "" == FrameOf(HEARTBEAT_MSG);
  }
}
