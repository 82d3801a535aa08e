/**
 * The STM32 IO expander's handling of one controller message line (Displayer::parse_message
 * in STM_Expander/src/main.cpp). The controller sends pin requests as `[MSG:<LEVEL>: <body>]`
 * with LEVEL one of INI, GET, SET and a body `io.<pin>=<parameters>`. The decoder either
 * ignores the line, forwards it unchanged to the pendant, or asks a pin to initialise itself
 * or to set its output.
 */
module StmExpander {
  import opened Wrappers
  import opened ArduinoString

  /** The level and the body of a message. */
  datatype Fields = Fields(level: Str, body: Str)

  /** What the expander does with one message. */
  datatype Action =
    | Ignore                            // nothing is called and nothing is printed
    | Forward(message: Str)             // the message is printed to the pendant
    | InitPin(pin: int, params: Str)    // pins[pin].init(params)
    | SetOutput(pin: int, params: Str)  // pins[pin].set_output(value read from params)

  /** What a pin reports back; the codes other than None are not part of this model. */
  datatype FailCode = NoFailure | Failure(code: nat)

  /** The offset of the level: the length of "[MSG:". */
  const PrefixLength: nat := 5

  /** True when k is the position of the first space after the "[MSG:" prefix. */
  ghost predicate FirstSpaceAt(m: seq<char>, k: int) {
    PrefixLength <= k < |m| && m[k] == ' ' && ' ' !in m[PrefixLength..k]
  }

  /**
   * Lines 28-39: the level runs from offset 5 up to the first space, less its last
   * character (the colon); the body starts one past that space and loses its last
   * character (the closing bracket). With no space the message has no level at all.
   */
  function SplitMessage(message: Str): (r: Option<Fields>)
    ensures r.None? <==> |message| <= PrefixLength || ' ' !in message[PrefixLength..]
  {
    var rest := SubstringFrom(message, PrefixLength);
    var pos := IndexOf(rest, ' ');
    if pos == -1 then None
    else
      var level := Substring(rest, 0, AsUnsigned(pos - 1));
      var body := SubstringFrom(message, AsUnsigned(6 + |level| + 1));
      Some(Fields(level, RemoveFrom(body, AsUnsigned(|body| - 1))))
  }

  predicate IsIoLevel(level: seq<char>) {
    level == "INI" || level == "GET" || level == "SET"
  }

  /** The pin and parameter list of an IO request. */
  datatype PinRequest = PinRequest(pin: int, params: Str)

  /**
   * Lines 48-60: a body is a pin request only when it starts with "io." and has an '=';
   * the pin is the number between the first '.' and the first '=', and the parameters
   * are everything after that '='.
   */
  function ParsePinRequest(body: Str): (r: Option<PinRequest>)
    ensures r.None? <==> !StartsWith(body, "io.") || '=' !in body
    ensures StartsWith(body, "io.") ==> FirstAt(body, '.', 2)
    ensures forall e {:trigger FirstAt(body, '=', e)} :: r.Some? && FirstAt(body, '=', e) ==>
              3 <= e && r.value == PinRequest(ToInt(body[3..e]), body[e + 1..])
  {
    FirstAtUnique(body, '=');
    if !StartsWith(body, "io.") then None
    else
      assert body[..3] == "io.";
      assert FirstAt(body, '.', 2) by { assert body[..2] == "io"; }
      FirstAtUnique(body, '.');
      var pos := IndexOf(body, '.');
      var nextpos := IndexOf(body, '=');
      if pos == -1 || nextpos == -1 then None
      else
        Some(PinRequest(ToInt(Substring(body, AsUnsigned(pos + 1), AsUnsigned(nextpos))),
                        SubstringFrom(body, AsUnsigned(nextpos + 1))))
  }

  /** Lines 43-82: INI initialises the pin, SET sets its output, GET does nothing. */
  function DecodeIo(level: Str, body: Str): (a: Action)
    requires IsIoLevel(level)
    ensures !a.Forward?
    ensures a == Ignore <==> level == "GET" || ParsePinRequest(body).None?
    ensures a.InitPin? ==> level == "INI" && ParsePinRequest(body) == Some(PinRequest(a.pin, a.params))
    ensures a.SetOutput? ==> level == "SET" && ParsePinRequest(body) == Some(PinRequest(a.pin, a.params))
  {
    match ParsePinRequest(body)
    case None => Ignore
    case Some(req) =>
      if level == "INI" then InitPin(req.pin, req.params)
      else if level == "SET" then SetOutput(req.pin, req.params)
      else Ignore
  }

  /** Displayer::parse_message: decide what one message line makes the expander do. */
  function ParseMessage(message: Str): (a: Action)
    ensures a.Forward? ==> a.message == message
    ensures |message| <= PrefixLength || ' ' !in message[PrefixLength..] ==> a == Ignore
  {
    match SplitMessage(message)
    case None => Ignore
    case Some(f) => if IsIoLevel(f.level) then DecodeIo(f.level, f.body) else Forward(message)
  }

  /**
   * What the expander prints to the pendant once the pin (if any) has answered: the
   * forwarded message with println's line end, or an error text when the pin failed.
   */
  function PendantOutput(a: Action, result: FailCode): (out: string)
    ensures a.Forward? ==> out == a.message + "\r\n"
    ensures out == "" <==> a.Ignore? || ((a.InitPin? || a.SetOutput?) && !result.Failure?)
    ensures a.InitPin? && result.Failure? ==> out == "IN Error"
    ensures a.SetOutput? && result.Failure? ==> out == "Set Error"
  {
    match a
    case Ignore => ""
    case Forward(m) => m + "\r\n"
    case InitPin(_, _) => if result.Failure? then "IN Error" else ""
    case SetOutput(_, _) => if result.Failure? then "Set Error" else ""
  }

  // ---- Properties -------------------------------------------------------------------

  /** The level and body of a message, from the position of its first space after the prefix. */
  lemma SplitAtFirstSpace(message: Str, k: int)
    requires FirstSpaceAt(message, k)
    ensures SplitMessage(message).Some?
    ensures k > PrefixLength ==> SplitMessage(message) == Some(Fields(message[PrefixLength..k - 1], DropLast(message[k + 1..])))
    ensures k == PrefixLength ==> SplitMessage(message).value.level == message[PrefixLength..]
    ensures k == PrefixLength && |message| + 2 < UIntLimit ==> SplitMessage(message).value.body == []
  {
    var rest := message[PrefixLength..];
    assert rest[..k - PrefixLength] == message[PrefixLength..k];
    assert FirstAt(rest, ' ', k - PrefixLength);
    FirstAtUnique(rest, ' ');
    assert IndexOf(rest, ' ') == k - PrefixLength;
    if k > PrefixLength {
      assert rest[0..k - PrefixLength - 1] == message[PrefixLength..k - 1];
    }
  }

  /** The wire form a controller uses for a message with a level. */
  function WireForm(level: seq<char>, body: seq<char>): seq<char> {
    "[MSG:" + level + ": " + body + "]"
  }

  /** A level without spaces and any body come back out of their wire form. */
  lemma WireFormSplits(level: seq<char>, body: seq<char>)
    requires ' ' !in level
    requires |WireForm(level, body)| < UIntLimit
    ensures SplitMessage(WireForm(level, body)) == Some(Fields(level, body))
  {
    var m: Str := WireForm(level, body);
    var k := PrefixLength + |level| + 1;
    assert |m| == k + 1 + |body| + 1;
    assert m[PrefixLength..k - 1] == level;
    assert m[k - 1] == ':' && m[k] == ' ';
    assert m[PrefixLength..k] == level + ":";
    assert FirstSpaceAt(m, k);
    var tail := m[k + 1..];
    assert tail == body + "]";
    assert DropLast(tail) == body;
    SplitAtFirstSpace(m, k);
  }

  /** Any level other than INI, GET and SET forwards the original message, unmodified. */
  lemma LevelDecidesForwarding(message: Str, k: int)
    requires FirstSpaceAt(message, k)
    ensures k > PrefixLength ==> (ParseMessage(message) == Forward(message) <==> !IsIoLevel(message[PrefixLength..k - 1]))
    ensures k == PrefixLength ==> ParseMessage(message) == Forward(message)
  {
    SplitAtFirstSpace(message, k);
    if k == PrefixLength {
      var level := message[PrefixLength..];
      assert level[0] == ' ';
    }
  }

  /** The text of a pin request as the controller sends it. */
  function IoMessage(level: seq<char>, pin: int, params: seq<char>): seq<char> {
    WireForm(level, "io." + IntToDecimal(pin) + "=" + params)
  }

  /**
   * Decoding a well-formed pin request gives back its pin and its parameters, whatever
   * the parameters hold (further '=' signs, spaces or brackets included). The pin is not
   * range-checked: a negative one reaches the pin table too.
   */
  lemma IoMessageRoundTrip(level: seq<char>, pin: int, params: seq<char>)
    requires IsIoLevel(level)
    requires LongMin <= pin <= LongMax
    requires |IoMessage(level, pin, params)| < UIntLimit
    ensures ParseMessage(IoMessage(level, pin, params)) ==
              if level == "INI" then InitPin(pin, params)
              else if level == "SET" then SetOutput(pin, params)
              else Ignore
  {
    var body := "io." + IntToDecimal(pin) + "=" + params;
    WireFormSplits(level, body);
    IoBodyDecodes(level, pin, params);
  }

  /** The body `io.<pin>=<params>` of an IO level decodes to its pin and parameters. */
  lemma IoBodyDecodes(level: seq<char>, pin: int, params: seq<char>)
    requires IsIoLevel(level)
    requires LongMin <= pin <= LongMax
    requires |"io." + IntToDecimal(pin) + "=" + params| < UIntLimit
    ensures DecodeIo(level, "io." + IntToDecimal(pin) + "=" + params) ==
              if level == "INI" then InitPin(pin, params)
              else if level == "SET" then SetOutput(pin, params)
              else Ignore
  {
    var digits := IntToDecimal(pin);
    var body: Str := "io." + digits + "=" + params;
    var e := 3 + |digits|;
    assert body[..e] == "io." + digits;
    assert '=' !in body[..e] by {
      forall i | 0 <= i < e ensures body[i] != '=' {
        if i >= 3 { assert body[i] == digits[i - 3]; }
      }
    }
    assert FirstAt(body, '=', e);
    assert StartsWith(body, "io.");
    assert body[3..e] == digits;
    assert body[e + 1..] == params;
    IntDecimalRoundTrip(pin);
  }

  /** An IO level whose body is not `io.<pin>=…` makes the expander do nothing at all. */
  lemma MalformedIoIgnored(level: seq<char>, body: Str)
    requires IsIoLevel(level)
    requires |WireForm(level, body)| < UIntLimit
    requires !StartsWith(body, "io.") || '=' !in body
    ensures ParseMessage(WireForm(level, body)) == Ignore
  {
    WireFormSplits(level, body);
  }

  /**
   * The pendant sees a forwarded message verbatim with a line end; a pin request is never
   * echoed, and its only output is an error text when the pin reports a failure.
   */
  lemma PendantSeesForwardsAndPinErrors(message: Str, result: FailCode)
    ensures ParseMessage(message).Forward? ==> PendantOutput(ParseMessage(message), result) == message + "\r\n"
    ensures !ParseMessage(message).Forward? ==> PendantOutput(ParseMessage(message), result) in {"", "IN Error", "Set Error"}
    ensures !ParseMessage(message).Forward? && PendantOutput(ParseMessage(message), result) != "" <==>
              (ParseMessage(message).InitPin? || ParseMessage(message).SetOutput?) && result.Failure?
  {
  }

  /**
   * Informational messages such as `[MSG:INFO: Hello pendant]`, the greeting the expander
   * itself prints, are forwarded unchanged.
   */
  lemma NonIoLevelForwarded(level: seq<char>, body: seq<char>)
    requires ' ' !in level && !IsIoLevel(level)
    requires |WireForm(level, body)| < UIntLimit
    ensures ParseMessage(WireForm(level, body)) == Forward(WireForm(level, body))
  {
    WireFormSplits(level, body);
  }

  /** A message whose level is not followed by a colon. */
  function ColonlessForm(level: seq<char>, body: seq<char>): seq<char> {
    "[MSG:" + level + " " + body
  }

  /**
   * Without the colon after the level, the decoder drops the level's last letter instead:
   * in `[MSG:INI io.1=inp,low,pu]` the level reads as "IN", so the line is forwarded, not
   * executed.
   */
  lemma LevelWithoutColonIsForwarded(level: seq<char>, body: seq<char>)
    requires level != [] && ' ' !in level
    requires |ColonlessForm(level, body)| < UIntLimit
    ensures SplitMessage(ColonlessForm(level, body)) == Some(Fields(DropLast(level), DropLast(body)))
    ensures !IsIoLevel(DropLast(level)) ==> ParseMessage(ColonlessForm(level, body)) == Forward(ColonlessForm(level, body))
    ensures level == "INI" ==> ParseMessage(ColonlessForm(level, body)).Forward?
  {
    ColonlessSplits(level, body);
    var m: Str := ColonlessForm(level, body);
    LevelDecidesForwarding(m, PrefixLength + |level|);
    if level == "INI" {
      assert DropLast(level) == "IN";
    }
  }

  lemma ColonlessSplits(level: seq<char>, body: seq<char>)
    requires level != [] && ' ' !in level
    requires |ColonlessForm(level, body)| < UIntLimit
    ensures FirstSpaceAt(ColonlessForm(level, body), PrefixLength + |level|)
    ensures ColonlessForm(level, body)[PrefixLength..PrefixLength + |level| - 1] == DropLast(level)
    ensures SplitMessage(ColonlessForm(level, body)) == Some(Fields(DropLast(level), DropLast(body)))
  {
    var m: Str := ColonlessForm(level, body);
    var k := PrefixLength + |level|;
    assert m[PrefixLength..k] == level;
    assert m[PrefixLength..k - 1] == DropLast(level);
    assert m[k + 1..] == body;
    SplitAtFirstSpace(m, k);
  }
}
