/**
 * The console exporter: a per-request logger that prints one line per call,
 * with the level label optionally wrapped in an ANSI colour sequence. The
 * functions below give the body of each line (what follows `log.Printf`'s
 * timestamp prefix).
 */
module Console {
  import opened Wrappers
  import opened Carrier
  import ContentLength

  /** The four levels of the logger interface. */
  datatype Level = Debug | Info | Warn | Error

  const Red: nat := 31
  const Yellow: nat := 33
  const Blue: nat := 34
  const Gray: nat := 37

  const Esc: char := 27 as char
  /** The sequence that ends a coloured span: ESC `[0m`. */
  const Reset: string := [Esc, '[', '0', 'm']

  /** The fixed-width label each level prints. */
  function Label(level: Level): (l: string)
    ensures |l| == 5
  {
    match level
    case Debug => "DEBUG"
    case Info => "INFO "
    case Warn => "WARN "
    case Error => "ERROR"
  }

  /** The colour each level is printed in. */
  function ColorOf(level: Level): (c: nat)
    ensures c in {Gray, Blue, Yellow, Red}
  {
    match level
    case Debug => Gray
    case Info => Blue
    case Warn => Yellow
    case Error => Red
  }

  /** Go's `byte('0' + d)`: the character with code `48 + d`, truncated to a byte. */
  function ByteChar(d: nat): char
  {
    ((48 + d) % 256) as char
  }

  /** `colorPrint`: `s` unchanged without colour, else ESC `[` tens units `m` + `s` + reset. */
  function ColorPrint(noColor: bool, s: string, c: nat): (r: string)
    ensures noColor ==> r == s
    ensures !noColor ==> |r| == |s| + 9 && r[5..5 + |s|] == s && r[|r| - 4..] == Reset
  {
    if noColor then s
    else
      var r := [Esc, '[', ByteChar(c / 10), ByteChar(c % 10), 'm'] + s + Reset;
      assert r[5..5 + |s|] == s;
      r
  }

  /**
   * Reads a coloured label back: the two-digit colour code and the text
   * between the colour sequence and the reset, if `line` has that shape.
   */
  function StripColor(line: string): Option<(nat, string)>
  {
    if |line| >= 9 && line[0] == Esc && line[1] == '[' && ContentLength.IsDigit(line[2]) && ContentLength.IsDigit(line[3])
       && line[4] == 'm' && line[|line| - 4..] == Reset
    then Some(((line[2] as int - '0' as int) * 10 + (line[3] as int - '0' as int), line[5..|line| - 4]))
    else None
  }

  /** For every two-digit colour code the coloured label reads back as the code and the label. */
  lemma ColorPrintRoundTrip(s: string, c: nat)
    requires c < 100
    ensures StripColor(ColorPrint(false, s, c)) == Some((c, s))
  {
    var r := ColorPrint(false, s, c);
    assert r[2] == ByteChar(c / 10) && r[3] == ByteChar(c % 10);
    assert r[5..|r| - 4] == s;
  }

  /** Every label is five characters wide, the labels differ, and so do the colours. */
  lemma LevelTable(a: Level, b: Level)
    ensures |Label(a)| == 5
    ensures a != b ==> Label(a) != Label(b) && ColorOf(a) != ColorOf(b)
    ensures 10 <= ColorOf(a) < 100
  {
    if a != b {
      assert Label(a)[0] != Label(b)[0];
    }
  }

  /**
   * The body of an unformatted line: coloured label, path, message. The path
   * and the message are `%s` arguments, so they are printed as they are.
   */
  function ConsoleLine(req: Request, noColor: bool, level: Level, message: string): (line: string)
    ensures |line| == (if noColor then 5 else 14) + 3 + |req.path| + |message|
    ensures noColor ==> line[..5] == Label(level)
    ensures line[|line| - |message|..] == message
  {
    var l := ColorPrint(noColor, Label(level), ColorOf(level)) + ": " + req.path + " " + message;
    assert l == ColorPrint(noColor, Label(level), ColorOf(level)) + (": " + req.path + " ") + message;
    l
  }

  /**
   * The body of a formatted line: the request method is printed before the
   * path, and `text` is what the caller's format and arguments produce.
   */
  function ConsoleLineF(req: Request, noColor: bool, level: Level, text: string): (line: string)
    ensures |line| == (if noColor then 5 else 14) + 4 + |req.requestMethod| + |req.path| + |text|
    ensures noColor ==> line[..5] == Label(level)
    ensures line[|line| - |text|..] == text
  {
    var l := ColorPrint(noColor, Label(level), ColorOf(level)) + ": " + req.requestMethod + " " + req.path + " " + text;
    assert l == ColorPrint(noColor, Label(level), ColorOf(level)) + (": " + req.requestMethod + " " + req.path + " ") + text;
    l
  }

  /**
   * The layout of an unformatted line: the (possibly coloured) label, which
   * reads back as the level's colour and label, then `": "`, the path, one
   * space and the message.
   */
  lemma ConsoleLineLayout(req: Request, noColor: bool, level: Level, message: string)
    ensures var line := ConsoleLine(req, noColor, level, message);
            var n := if noColor then 5 else 14;
            && n <= |line|
            && line[..n] == ColorPrint(noColor, Label(level), ColorOf(level))
            && line[n..] == ": " + req.path + " " + message
            && (!noColor ==> StripColor(line[..n]) == Some((ColorOf(level), Label(level))))
  {
    var p := ColorPrint(noColor, Label(level), ColorOf(level));
    var line := ConsoleLine(req, noColor, level, message);
    LevelTable(level, level);
    assert line == p + (": " + req.path + " " + message);
    if !noColor {
      ColorPrintRoundTrip(Label(level), ColorOf(level));
    }
  }

  /**
   * The layout of a formatted line: the (possibly coloured) label, which
   * reads back as the level's colour and label, then `": "`, the method, one
   * space, the path, one space and the formatted text.
   */
  lemma ConsoleLineFLayout(req: Request, noColor: bool, level: Level, text: string)
    ensures var line := ConsoleLineF(req, noColor, level, text);
            var n := if noColor then 5 else 14;
            && n <= |line|
            && line[..n] == ColorPrint(noColor, Label(level), ColorOf(level))
            && line[n..] == ": " + req.requestMethod + " " + req.path + " " + text
            && (!noColor ==> StripColor(line[..n]) == Some((ColorOf(level), Label(level))))
  {
    var p := ColorPrint(noColor, Label(level), ColorOf(level));
    var line := ConsoleLineF(req, noColor, level, text);
    LevelTable(level, level);
    assert line == p + (": " + req.requestMethod + " " + req.path + " " + text);
    if !noColor {
      ColorPrintRoundTrip(Label(level), ColorOf(level));
    }
  }

  /** The warning line for `/health` with colour on. */
  lemma WarnLineExample(req: Request)
    requires req.path == "/health"
    ensures ConsoleLine(req, false, Warn, "disk low")
            == [Esc, '[', '3', '3', 'm'] + "WARN " + Reset + ": /health disk low"
  {
    var colored := [Esc, '[', '3', '3', 'm'] + "WARN " + Reset;
    assert ByteChar(Yellow / 10) == '3' && ByteChar(Yellow % 10) == '3';
    assert ColorPrint(false, Label(Warn), ColorOf(Warn)) == colored;
    assert ConsoleLine(req, false, Warn, "disk low") == colored + (": " + "/health" + " " + "disk low");
    assert ": " + "/health" + " " + "disk low" == ": /health disk low";
  }

  /**
   * With an empty request method the formatted line has two spaces after the
   * colon, so it differs from the unformatted line for the same text.
   */
  lemma EmptyMethodDoubleSpace(req: Request, noColor: bool, level: Level, text: string)
    requires req.requestMethod == ""
    ensures ConsoleLineF(req, noColor, level, text)
            == ColorPrint(noColor, Label(level), ColorOf(level)) + ":  " + req.path + " " + text
    ensures ConsoleLineF(req, noColor, level, text) != ConsoleLine(req, noColor, level, text)
  {
    var p := ColorPrint(noColor, Label(level), ColorOf(level));
    var f := ConsoleLineF(req, noColor, level, text);
    var u := ConsoleLine(req, noColor, level, text);
    assert f == p + ":  " + req.path + " " + text;
    assert |f| == |u| + 1;
  }

  /** The handler a console middleware installs around `next`. */
  datatype ConsoleHandler = ConsoleHandler(noColor: bool)

  /**
   * `consoleHandler.ServeHTTP`: the requests passed to `next`. There is one,
   * identical to the incoming request except that its context carries a
   * console logger for the incoming request.
   */
  function HandlerCalls(h: ConsoleHandler, r: Request): (calls: seq<Request>)
    ensures |calls| == 1
    ensures FromRequest(Some(calls[0])) == ConsoleLogger(r, h.noColor)
    ensures calls[0].ctx == NewContext(r.ctx, ConsoleLogger(r, h.noColor))
    ensures calls[0].(ctx := r.ctx) == r
  {
    [r.(ctx := NewContext(r.ctx, ConsoleLogger(r, h.noColor)))]
  }

  class ConsoleExporter {
    var noColor: bool

    /** `NewConsoleExporter`: colour on. */
    constructor ()
      ensures !noColor
    {
      noColor := false;
    }

    /** Sets `noColor` and returns the same exporter. */
    method NoColor(v: bool) returns (e: ConsoleExporter)
      modifies this
      ensures e == this && noColor == v
    {
      noColor := v;
      e := this;
    }

    /**
     * `Middleware`: the returned middleware keeps a pointer to the exporter;
     * `noColor` is not read yet.
     */
    method Middleware() returns (m: ConsoleMiddleware)
      ensures m.exporter == this
    {
      m := ConsoleMiddleware(this);
    }
  }

  /** The middleware function `Middleware` returns: it refers to its exporter. */
  datatype ConsoleMiddleware = ConsoleMiddleware(exporter: ConsoleExporter)

  /**
   * Applying the middleware to `next`: the handler copies the exporter's
   * `noColor` as it is at this moment.
   */
  method Wrap(m: ConsoleMiddleware) returns (h: ConsoleHandler)
    ensures h.noColor == m.exporter.noColor
  {
    h := ConsoleHandler(m.exporter.noColor);
  }

  /**
   * A `NoColor(true)` made after `Middleware()` but before the middleware is
   * applied still takes effect: the handler prints without colour.
   */
  method NoColorAfterMiddleware() returns (h: ConsoleHandler)
    ensures h.noColor
  {
    var e := new ConsoleExporter();
    var m := e.Middleware();
    var e' := e.NoColor(true);
    h := Wrap(m);
  }
}
