/**
 * `Logger` of libraries/logger.py: one console line per call, coloured by status, in one of
 * three layouts (classic, normal, default). Colours are named rather than written as ANSI
 * escapes, and the wall-clock reading is a parameter.
 */
module Logging {

  import opened Strings

  /** The colorama foreground colours the logger uses; Reset ends a coloured stretch. */
  datatype Colour = White | LightYellow | Yellow | Blue | Red | Green | LightBlue | Cyan | Reset

  /** A console line: text interleaved with colour switches. */
  datatype Piece = Text(text: string) | Ink(colour: Colour)

  type Line = seq<Piece>

  /**
   * What `log` is given as its message: a string, or any other object, seen through the
   * name of its type and its `str()`.
   */
  datatype Message = Str(s: string) | Obj(typeName: string, text: string)

  /** The `retry` keyword argument: absent (None), a number of seconds, or any other value (a string). */
  datatype Retry = NoRetry | Numeric(seconds: nat) | Textual(s: string)

  /** The two renderings of the current time: "%H:%M:%S" and the microseconds of "%f". */
  datatype Clock = Clock(hms: string, micros: string)

  /** What a call does, in order: possibly sleep, then emit one line. */
  datatype Effect = Sleep(seconds: nat) | Emit(line: Line)

  /** A logger's configuration; nothing in it changes after construction. */
  datatype Logger = Logger(name: string, classic: bool, normal: bool)

  /** The statuses with a colour of their own, each with that colour. */
  const Palette: map<string, Colour> := map[
    "info" := White, "status" := LightYellow, "warning" := Yellow, "success" := Blue,
    "error" := Red, "debug" := Green, "checkout" := LightBlue]

  /** The colour for a status: a total mapping, CYAN for every status it does not name. */
  function StatusColour(status: string): (c: Colour)
    ensures c != Reset
  {
    if status == "info" then White
    else if status == "status" then LightYellow
    else if status == "warning" then Yellow
    else if status == "success" then Blue
    else if status == "error" then Red
    else if status == "debug" then Green
    else if status == "checkout" then LightBlue
    else Cyan
  }

  /** The if/elif chain agrees with the palette, and falls back to Cyan exactly off it. */
  lemma StatusColourMatchesPalette(status: string)
    ensures StatusColour(status) == if status in Palette then Palette[status] else Cyan
    ensures StatusColour(status) == Cyan <==> status !in Palette
  {
  }

  /** Python truth value of the `retry` argument. */
  predicate Truthy(r: Retry) {
    match r
    case NoRetry => false
    case Numeric(n) => n != 0
    case Textual(s) => s != ""
  }

  /** The message text: `str(message)`, or the type name for a non-string whose `str()` is empty. */
  function Render(m: Message): (text: string)
    ensures m.Str? ==> text == m.s
    ensures m.Obj? && m.text != "" ==> text == m.text
    ensures m.Obj? && m.text == "" ==> text == m.typeName
  {
    match m
    case Str(s) => s
    case Obj(name, t) => t + (if t == "" then name else "")
  }

  /** What the default layout appends for a retry argument. */
  function RetrySuffix(r: Retry): string {
    if !Truthy(r) then ""
    else if r.Numeric? then " Retry in " + NatToString(r.seconds) + " sec..."
    else " Retry..."
  }

  /** Classic layout shows the status tag only for these. */
  predicate TaggedInClassic(status: string) {
    status in ["error", "warning", "debug"]
  }

  /** The line `log` builds. */
  function Format(l: Logger, message: Message, status: string, retry: Retry, now: Clock): Line {
    var colour := StatusColour(status);
    var text := Render(message);
    var tag := Upper(status);
    if l.classic then
      if TaggedInClassic(status) then [Text("[" + tag + "]:"), Ink(colour), Text(" " + text), Ink(Reset)]
      else [Ink(colour), Text(" " + text), Ink(Reset)]
    else if l.normal then
      [Text("[" + now.hms + "][" + tag + "]:"), Ink(colour), Text(" " + text), Ink(Reset)]
    else
      [Text("[" + now.hms + "." + now.micros + "][" + tag + "]"), Ink(colour),
       Text("[" + l.name + "] => " + text + RetrySuffix(retry)), Ink(Reset)]
  }

  /** The effects of `Logger.log`: the retry sleep (default layout, numeric retry only), then the line. */
  function Log(l: Logger, message: Message, status: string, retry: Retry, now: Clock): (effects: seq<Effect>)
    ensures |effects| >= 1 && effects[|effects| - 1] == Emit(Format(l, message, status, retry, now))
  {
    var sleep := if !l.classic && !l.normal && Truthy(retry) && retry.Numeric? then [Sleep(retry.seconds)] else [];
    sleep + [Emit(Format(l, message, status, retry, now))]
  }

  // ---------------------------------------------------------------------------
  // The per-status wrappers
  // ---------------------------------------------------------------------------

  /** `error(...)`: one line in red. */
  function Error(l: Logger, message: Message, retry: Retry, now: Clock): (effects: seq<Effect>)
    ensures Lines(effects) == [Format(l, message, "error", retry, now)]
    ensures InkOf(Format(l, message, "error", retry, now)) == Red
  {
    LogEffects(l, message, "error", retry, now);
    Log(l, message, "error", retry, now)
  }

  /** `info(...)`: one line in white. */
  function Info(l: Logger, message: Message, retry: Retry, now: Clock): (effects: seq<Effect>)
    ensures Lines(effects) == [Format(l, message, "info", retry, now)]
    ensures InkOf(Format(l, message, "info", retry, now)) == White
  {
    LogEffects(l, message, "info", retry, now);
    Log(l, message, "info", retry, now)
  }

  /** `status(...)`: one line in light yellow. */
  function Status(l: Logger, message: Message, retry: Retry, now: Clock): (effects: seq<Effect>)
    ensures Lines(effects) == [Format(l, message, "status", retry, now)]
    ensures InkOf(Format(l, message, "status", retry, now)) == LightYellow
  {
    LogEffects(l, message, "status", retry, now);
    Log(l, message, "status", retry, now)
  }

  /** `success(...)`: one line in blue. */
  function Success(l: Logger, message: Message, retry: Retry, now: Clock): (effects: seq<Effect>)
    ensures Lines(effects) == [Format(l, message, "success", retry, now)]
    ensures InkOf(Format(l, message, "success", retry, now)) == Blue
  {
    LogEffects(l, message, "success", retry, now);
    Log(l, message, "success", retry, now)
  }

  /** `warning(...)`: one line in yellow. */
  function Warning(l: Logger, message: Message, retry: Retry, now: Clock): (effects: seq<Effect>)
    ensures Lines(effects) == [Format(l, message, "warning", retry, now)]
    ensures InkOf(Format(l, message, "warning", retry, now)) == Yellow
  {
    LogEffects(l, message, "warning", retry, now);
    Log(l, message, "warning", retry, now)
  }

  /** `debug(...)`: one line in green. */
  function Debug(l: Logger, message: Message, retry: Retry, now: Clock): (effects: seq<Effect>)
    ensures Lines(effects) == [Format(l, message, "debug", retry, now)]
    ensures InkOf(Format(l, message, "debug", retry, now)) == Green
  {
    LogEffects(l, message, "debug", retry, now);
    Log(l, message, "debug", retry, now)
  }

  // ---------------------------------------------------------------------------
  // Properties
  // ---------------------------------------------------------------------------

  /** The lines emitted by a run of effects. */
  function Lines(effects: seq<Effect>): seq<Line> {
    if effects == [] then []
    else (if effects[0].Emit? then [effects[0].line] else []) + Lines(effects[1..])
  }

  /** The sleeps taken by a run of effects. */
  function Sleeps(effects: seq<Effect>): seq<nat> {
    if effects == [] then []
    else (if effects[0].Sleep? then [effects[0].seconds] else []) + Sleeps(effects[1..])
  }

  /** The one colour switch of a line before its closing Reset. */
  function InkOf(line: Line): Colour {
    if line == [] then Reset
    else if line[0].Ink? && line[0].colour != Reset then line[0].colour
    else InkOf(line[1..])
  }

  /**
   * Every call emits exactly one line, coloured by its status and closed by a Reset, and sleeps
   * at most once: for `retry` seconds, only in the default layout and only for a non-zero number.
   */
  lemma LogEffects(l: Logger, message: Message, status: string, retry: Retry, now: Clock)
    ensures Lines(Log(l, message, status, retry, now)) == [Format(l, message, status, retry, now)]
    ensures var line := Format(l, message, status, retry, now);
      InkOf(line) == StatusColour(status) && line[|line| - 1] == Ink(Reset)
    ensures Sleeps(Log(l, message, status, retry, now))
      == if !l.classic && !l.normal && retry.Numeric? && retry.seconds != 0 then [retry.seconds] else []
  {
    var effects := Log(l, message, status, retry, now);
    var line := Format(l, message, status, retry, now);
    if |effects| == 2 {
      assert effects[1..] == [Emit(line)];
    }
    assert Lines([Emit(line)]) == [line] by {
      assert [Emit(line)][1..] == [];
    }
    assert Sleeps([Emit(line)]) == [] by {
      assert [Emit(line)][1..] == [];
    }
  }

  /** A string retry argument never makes the logger sleep, whatever the layout. */
  lemma TextRetryNeverSleeps(l: Logger, message: Message, status: string, s: string, now: Clock)
    ensures Sleeps(Log(l, message, status, Textual(s), now)) == []
  {
    LogEffects(l, message, status, Textual(s), now);
  }

  /** In the default layout a truthy retry extends the message: with its seconds when numeric, with " Retry..." otherwise. */
  lemma RetrySuffixInDefaultLayout(l: Logger, message: Message, status: string, retry: Retry, now: Clock)
    requires !l.classic && !l.normal
    ensures var line, plain := Format(l, message, status, retry, now), Format(l, message, status, NoRetry, now);
      |line| == |plain| == 4 && line[2].Text? && plain[2].Text?
      && line[..2] == plain[..2] && line[3] == plain[3]
      && line[2].text == plain[2].text
           + (if !Truthy(retry) then ""
              else if retry.Numeric? then " Retry in " + NatToString(retry.seconds) + " sec..."
              else " Retry...")
  {
    var head := "[" + now.hms + "." + now.micros + "][" + Upper(status) + "]";
    var body := "[" + l.name + "] => " + Render(message);
    var ink := Ink(StatusColour(status));
    assert RetrySuffix(NoRetry) == "" && body + RetrySuffix(NoRetry) == body;
    assert Format(l, message, status, NoRetry, now) == [Text(head), ink, Text(body), Ink(Reset)];
    assert Format(l, message, status, retry, now) == [Text(head), ink, Text(body + RetrySuffix(retry)), Ink(Reset)];
  }

  /** What a line shows on the terminal: its text pieces, without the colour codes. */
  function Shown(line: Line): string {
    if line == [] then ""
    else (if line[0].Text? then line[0].text else "") + Shown(line[1..])
  }

  /** The colour codes of a line, in order. */
  function Inks(line: Line): seq<Colour> {
    if line == [] then []
    else (if line[0].Ink? then [line[0].colour] else []) + Inks(line[1..])
  }

  /** A line of a header, a colour, a text and a reset shows the header and the text. */
  lemma TaggedLine(head: string, c: Colour, text: string, d: Colour)
    ensures Shown([Text(head), Ink(c), Text(text), Ink(d)]) == head + text
    ensures Inks([Text(head), Ink(c), Text(text), Ink(d)]) == [c, d]
  {
    var line := [Text(head), Ink(c), Text(text), Ink(d)];
    assert line[1..] == [Ink(c), Text(text), Ink(d)];
    UntaggedLine(c, text, d);
    assert Shown(line) == head + Shown(line[1..]);
    assert Inks(line) == Inks(line[1..]);
  }

  /** A line of a colour, a text and a reset shows the text. */
  lemma UntaggedLine(c: Colour, text: string, d: Colour)
    ensures Shown([Ink(c), Text(text), Ink(d)]) == text
    ensures Inks([Ink(c), Text(text), Ink(d)]) == [c, d]
  {
    var line := [Ink(c), Text(text), Ink(d)];
    assert line[1..] == [Text(text), Ink(d)];
    assert line[1..][1..] == [Ink(d)];
    assert line[1..][1..][1..] == [];
    assert Shown(line[1..][1..]) == "" && Inks(line[1..][1..]) == [d];
    assert Shown(line[1..]) == text && Inks(line[1..]) == [d];
    assert Shown(line) == Shown(line[1..]) && Inks(line) == [c] + Inks(line[1..]);
  }

  /**
   * Every layout switches to the status colour once and resets once, in that order, and shows
   * the rendered message. The normal and default layouts start with the clock and show the
   * upper-cased status in brackets; the default layout also names the logger.
   */
  lemma FormatShows(l: Logger, message: Message, status: string, retry: Retry, now: Clock)
    ensures Inks(Format(l, message, status, retry, now)) == [StatusColour(status), Reset]
    ensures Contains(Shown(Format(l, message, status, retry, now)), Render(message))
    ensures !l.classic ==> ("[" + now.hms) <= Shown(Format(l, message, status, retry, now))
    ensures !l.classic ==> Contains(Shown(Format(l, message, status, retry, now)), "[" + Upper(status) + "]")
    ensures !l.classic && !l.normal ==> Contains(Shown(Format(l, message, status, retry, now)), "[" + l.name + "] => ")
  {
    if l.classic {
      ClassicShows(l, message, status, retry, now);
    } else if l.normal {
      NormalShows(l, message, status, retry, now);
    } else {
      DefaultShows(l, message, status, retry, now);
    }
  }

  lemma ClassicShows(l: Logger, message: Message, status: string, retry: Retry, now: Clock)
    requires l.classic
    ensures Inks(Format(l, message, status, retry, now)) == [StatusColour(status), Reset]
    ensures Contains(Shown(Format(l, message, status, retry, now)), Render(message))
  {
    var colour, text, tag := StatusColour(status), Render(message), Upper(status);
    if TaggedInClassic(status) {
      TaggedLine("[" + tag + "]:", colour, " " + text, Reset);
      ContainsMiddle("[" + tag + "]: ", text, "");
      assert "[" + tag + "]:" + (" " + text) == "[" + tag + "]: " + text + "";
    } else {
      UntaggedLine(colour, " " + text, Reset);
      ContainsMiddle(" ", text, "");
      assert " " + text == " " + text + "";
    }
  }

  lemma NormalShows(l: Logger, message: Message, status: string, retry: Retry, now: Clock)
    requires !l.classic && l.normal
    ensures Inks(Format(l, message, status, retry, now)) == [StatusColour(status), Reset]
    ensures var shown := Shown(Format(l, message, status, retry, now));
      Contains(shown, Render(message)) && ("[" + now.hms) <= shown && Contains(shown, "[" + Upper(status) + "]")
  {
    var tag := Upper(status);
    TaggedLine("[" + now.hms + "][" + tag + "]:", StatusColour(status), " " + Render(message), Reset);
    NormalText(now.hms, tag, Render(message));
  }

  /** The normal layout's text holds the message and the bracketed tag, after the clock. */
  lemma NormalText(hms: string, tag: string, text: string)
    ensures var shown := "[" + hms + "][" + tag + "]:" + (" " + text);
      Contains(shown, text) && ("[" + hms) <= shown && Contains(shown, "[" + tag + "]")
  {
    NormalTextMessage("[" + hms + "][" + tag + "]:", text);
    NormalTextTag(hms, tag, " " + text);
  }

  lemma NormalTextMessage(head: string, text: string)
    ensures Contains(head + (" " + text), text)
  {
    ContainsMiddle(head + " ", text, "");
    assert head + (" " + text) == head + " " + text + "";
  }

  lemma NormalTextTag(hms: string, tag: string, body: string)
    ensures var shown := "[" + hms + "][" + tag + "]:" + body;
      ("[" + hms) <= shown && Contains(shown, "[" + tag + "]")
  {
    var shown := "[" + hms + "][" + tag + "]:" + body;
    ContainsMiddle("[" + hms + "]", "[" + tag + "]", ":" + body);
    assert "][" == "]" + "[";
    assert shown == "[" + hms + "]" + ("[" + tag + "]") + (":" + body);
    assert shown == ("[" + hms) + ("][" + tag + "]:" + body);
  }

  lemma DefaultShows(l: Logger, message: Message, status: string, retry: Retry, now: Clock)
    requires !l.classic && !l.normal
    ensures Inks(Format(l, message, status, retry, now)) == [StatusColour(status), Reset]
    ensures var shown := Shown(Format(l, message, status, retry, now));
      Contains(shown, Render(message)) && ("[" + now.hms) <= shown && Contains(shown, "[" + Upper(status) + "]")
      && Contains(shown, "[" + l.name + "] => ")
  {
    var tag, text := Upper(status), Render(message);
    var head := "[" + now.hms + "." + now.micros + "][" + tag + "]";
    var body := "[" + l.name + "] => " + text + RetrySuffix(retry);
    assert Format(l, message, status, retry, now) == [Text(head), Ink(StatusColour(status)), Text(body), Ink(Reset)];
    TaggedLine(head, StatusColour(status), body, Reset);
    DefaultText(now.hms, now.micros, tag, l.name, text, RetrySuffix(retry));
  }

  /** The default layout's text holds the message, the tag and the logger name, after the clock. */
  lemma DefaultText(hms: string, micros: string, tag: string, name: string, text: string, suffix: string)
    ensures var shown := "[" + hms + "." + micros + "][" + tag + "]" + ("[" + name + "] => " + text + suffix);
      Contains(shown, text) && ("[" + hms) <= shown && Contains(shown, "[" + tag + "]")
      && Contains(shown, "[" + name + "] => ")
  {
    DefaultTextAround("[" + hms + "." + micros + "][" + tag + "]", "[" + name + "] => ", text, suffix);
    DefaultTextTag(hms, micros, tag, "[" + name + "] => " + text + suffix);
  }

  lemma DefaultTextAround(head: string, named: string, text: string, suffix: string)
    ensures Contains(head + (named + text + suffix), text)
    ensures Contains(head + (named + text + suffix), named)
  {
    ContainsMiddle(head + named, text, suffix);
    assert head + (named + text + suffix) == head + named + text + suffix;
    ContainsMiddle(head, named, text + suffix);
    assert head + (named + text + suffix) == head + named + (text + suffix);
  }

  lemma DefaultTextTag(hms: string, micros: string, tag: string, body: string)
    ensures var shown := "[" + hms + "." + micros + "][" + tag + "]" + body;
      ("[" + hms) <= shown && Contains(shown, "[" + tag + "]")
  {
    var shown := "[" + hms + "." + micros + "][" + tag + "]" + body;
    ContainsMiddle("[" + hms + "." + micros + "]", "[" + tag + "]", body);
    assert "][" == "]" + "[";
    assert shown == "[" + hms + "." + micros + "]" + ("[" + tag + "]") + body;
    assert shown == ("[" + hms) + ("." + micros + "][" + tag + "]" + body);
  }

  /** Classic and normal layouts ignore the retry argument altogether. */
  lemma OtherLayoutsIgnoreRetry(l: Logger, message: Message, status: string, r1: Retry, r2: Retry, now: Clock)
    requires l.classic || l.normal
    ensures Log(l, message, status, r1, now) == Log(l, message, status, r2, now)
  {
  }

  /** Classic layout starts with the "[STATUS]:" tag exactly for error, warning and debug. */
  lemma ClassicTag(l: Logger, message: Message, status: string, retry: Retry, now: Clock)
    requires l.classic
    ensures var line := Format(l, message, status, retry, now);
      line[0].Text? <==> status == "error" || status == "warning" || status == "debug"
    ensures var line := Format(l, message, status, retry, now);
      line[0].Text? ==> line[0].text == "[" + Upper(status) + "]:"
  {
  }
}
