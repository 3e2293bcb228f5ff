/** The console writer's colour table and its three format hooks. The level
    hook remembers the upper-cased level of the record in currentLogLevel;
    the message hook colours the message with whatever that variable holds. */
module Console {
  import opened GoStrings
  import opened Levels

  const Esc: char := 27 as char

  /** A Select Graphic Rendition control sequence (section 8.3.117 of
      ECMA-48): ESC '[' parameters 'm'. */
  function Sgr(code: string): string {
    [Esc, '['] + code + "m"
  }

  predicate IsParamChar(c: char) {
    '0' <= c <= '9' || c == ';'
  }

  predicate IsSgr(s: string) {
    |s| >= 3 && s[0] == Esc && s[1] == '[' && s[|s| - 1] == 'm' &&
    forall i :: 2 <= i < |s| - 1 ==> IsParamChar(s[i])
  }

  const ColorReset: string := Sgr("0")
  const ColorGreen: string := Sgr("32")
  const ColorRed: string := Sgr("31")
  const ColorYellow: string := Sgr("33")
  const ColorPurple: string := Sgr("35")

  /** The colour of each upper-cased level string; the key for warnings is
      "WARN", the string zerolog writes, not the configuration name "WARNING". */
  const LevelColorMap: map<string, string> :=
    map["DEBUG" := ColorYellow, "INFO" := ColorGreen, "WARN" := ColorPurple, "ERROR" := ColorRed]

  /** A Go map lookup: the table's colour for key, an SGR sequence, or the
      empty string when the key is missing. */
  function ColorFor(key: string): (r: string)
    ensures r != "" <==> key in LevelColorMap
    ensures r == "" || IsSgr(r)
  {
    if key in LevelColorMap then LevelColorMap[key] else ""
  }

  function Bracket(s: string): string {
    "[" + s + "]"
  }

  /** A coloured console cell: the colour of key, the bracketed text, and
      the reset sequence, which is appended even when there is no colour.
      The cell starts with the table's colour for its key (no colour when
      the key is missing) and shows exactly the bracketed text. */
  function Cell(key: string, text: string): (r: string)
    ensures LeadingColour(r) == ColorFor(key)
    ensures Esc !in text ==> Visible(r) == Bracket(text)
  {
    ColouredText(key, text);
    ColorFor(key) + Bracket(text) + ColorReset
  }

  // ---------------------------------------------------------------------
  // What a terminal shows, and which colour a cell starts with

  /** What follows a parameter list: the final 'm' is dropped with the
      parameters; an unfinished sequence swallows the rest. */
  function SkipParams(t: string): (r: string)
    ensures |r| <= |t| && r == t[|t| - |r|..]
  {
    if t == [] then []
    else if t[0] == 'm' then t[1..]
    else if IsParamChar(t[0]) then SkipParams(t[1..])
    else t
  }

  /** What follows an escape sequence whose ESC has just been read. */
  function SkipControl(t: string): (r: string)
    ensures |r| <= |t| && r == t[|t| - |r|..]
  {
    if t != [] && t[0] == '[' then SkipParams(t[1..]) else t
  }

  /** The text a terminal displays: every SGR sequence is removed. */
  function Visible(s: string): string
    decreases |s|
  {
    if s == [] then []
    else if s[0] == Esc then Visible(SkipControl(s[1..]))
    else [s[0]] + Visible(s[1..])
  }

  /** The SGR sequence a string starts with, or "" when it starts with
      ordinary text. */
  function LeadingColour(s: string): string {
    if s != [] && s[0] == Esc then s[..|s| - |SkipControl(s[1..])|] else []
  }

  lemma {:induction false} SkipParamsOf(p: string, y: string)
    requires forall i :: 0 <= i < |p| ==> IsParamChar(p[i])
    ensures SkipParams(p + "m" + y) == y
  {
    if p == [] {
      assert p + "m" + y == "m" + y;
    } else {
      assert (p + "m" + y)[1..] == p[1..] + "m" + y;
      SkipParamsOf(p[1..], y);
    }
  }

  /** An SGR sequence is Sgr of its parameters. */
  lemma SgrParams(c: string) returns (p: string)
    requires IsSgr(c)
    ensures c == Sgr(p)
    ensures forall i :: 0 <= i < |p| ==> IsParamChar(p[i])
  {
    p := c[2..|c| - 1];
    forall i | 0 <= i < |p| ensures IsParamChar(p[i]) {
      assert p[i] == c[i + 2];
    }
  }

  lemma SgrOfParams(p: string, y: string)
    requires forall i :: 0 <= i < |p| ==> IsParamChar(p[i])
    ensures Visible(Sgr(p) + y) == Visible(y)
    ensures LeadingColour(Sgr(p) + y) == Sgr(p)
  {
    var s, t := Sgr(p) + y, "[" + (p + "m" + y);
    assert s[0] == Esc;
    assert s[1..] == t;
    assert t[1..] == p + "m" + y;
    SkipParamsOf(p, y);
    assert SkipControl(t) == y;
    assert s[..|s| - |y|] == Sgr(p);
  }

  /** An SGR sequence in front of text is invisible and is the text's
      leading colour. */
  lemma SgrPrefix(c: string, y: string)
    requires IsSgr(c)
    ensures Visible(c + y) == Visible(y)
    ensures LeadingColour(c + y) == c
  {
    var p := SgrParams(c);
    SgrOfParams(p, y);
  }

  /** Text without ESC is displayed as it is. */
  lemma {:induction false} VisiblePlain(x: string, y: string)
    requires Esc !in x
    ensures Visible(x + y) == x + Visible(y)
    decreases |x|
  {
    if x == [] {
      assert x + y == y;
    } else {
      assert (x + y)[1..] == x[1..] + y;
      VisiblePlain(x[1..], y);
    }
  }

  lemma ResetIsSgr()
    ensures IsSgr(ColorReset)
  {
  }

  /** The text of a cell, before it is named: a colour (or none), the
      bracketed text, and the reset. */
  lemma ColouredText(key: string, text: string)
    ensures LeadingColour(ColorFor(key) + Bracket(text) + ColorReset) == ColorFor(key)
    ensures Esc !in text ==> Visible(ColorFor(key) + Bracket(text) + ColorReset) == Bracket(text)
  {
    var c, b := ColorFor(key), Bracket(text);
    var cell := c + b + ColorReset;
    ResetIsSgr();
    assert cell == c + (b + ColorReset);
    if c == "" {
      assert cell == b + ColorReset;
    } else {
      SgrPrefix(c, b + ColorReset);
    }
    if Esc !in text {
      assert Esc !in b;
      VisiblePlain(b, ColorReset);
      SgrPrefix(ColorReset, []);
      assert ColorReset + [] == ColorReset;
    }
  }

  /** Brackets are not letters, so upper-casing "[" + s + "]" upper-cases s. */
  lemma UpperBracket(s: string)
    ensures Upper("[" + s + "]") == Bracket(Upper(s))
  {
    UpperAppend("[" + s, "]");
    UpperAppend("[", s);
  }

  // ---------------------------------------------------------------------
  // The formatter

  class ConsoleFormatter {
    /** The upper-cased level of the record being formatted. */
    var currentLogLevel: string

    constructor ()
      ensures currentLogLevel == ""
    {
      currentLogLevel := "";
    }

    /** Records the upper-cased level and renders it, coloured, in brackets. */
    method FormatLevel(i: string) returns (r: string)
      modifies this
      ensures currentLogLevel == Upper(i)
      ensures r == Cell(Upper(i), Upper(i))
      ensures LeadingColour(r) == ColorFor(Upper(i))
      ensures Esc !in i ==> Visible(r) == Bracket(Upper(i))
    {
      currentLogLevel := Upper(i);
      r := ColorFor(currentLogLevel) + Upper("[" + i + "]") + ColorReset;
      UpperBracket(i);
      UpperKeeps(i, Esc);
    }

    /** Renders the message in brackets, in the colour of the level the last
      FormatLevel recorded; the state is left as it is. */
    method FormatMessage(i: string) returns (r: string)
      ensures r == Cell(currentLogLevel, i)
      ensures LeadingColour(r) == ColorFor(currentLogLevel)
      ensures Esc !in i ==> Visible(r) == Bracket(i)
    {
      r := ColorFor(currentLogLevel) + "[" + i + "]" + ColorReset;
      assert r == ColorFor(currentLogLevel) + Bracket(i) + ColorReset;
    }

    /** Renders the timestamp in brackets, with no colour. */
    method FormatTimestamp(i: string) returns (r: string)
      ensures r == Bracket(i)
      ensures LeadingColour(r) == ""
      ensures Esc !in i ==> Esc !in r && Visible(r) == r
    {
      r := "[" + i + "]";
      if Esc !in i {
        VisiblePlain(r, []);
        assert r + [] == r;
      }
    }
  }

  /** The console writer's order for one record: timestamp, level, then
      message. The level and message cells carry the same colour, the one
      the table gives the record's own level, whatever an earlier record
      left in currentLogLevel. */
  method FormatRecord(f: ConsoleFormatter, timestamp: string, level: string, message: string)
    returns (t: string, l: string, m: string)
    modifies f
    ensures f.currentLogLevel == Upper(level)
    ensures t == Bracket(timestamp)
    ensures l == Cell(Upper(level), Upper(level))
    ensures m == Cell(Upper(level), message)
    ensures LeadingColour(l) == LeadingColour(m) == ColorFor(Upper(level))
  {
    t := f.FormatTimestamp(timestamp);
    l := f.FormatLevel(level);
    m := f.FormatMessage(message);
  }

  /** The four levels the configuration can select are coloured when
      zerolog writes them: debug yellow, info green, warn purple, error red. */
  lemma EmittedLevelColours()
    ensures ColorFor(Upper(ZerologValue(Debug))) == ColorYellow
    ensures ColorFor(Upper(ZerologValue(Info))) == ColorGreen
    ensures ColorFor(Upper(ZerologValue(Warn))) == ColorPurple
    ensures ColorFor(Upper(ZerologValue(Error))) == ColorRed
  {
    assert ColorFor(ConfigName(Debug)) == ColorYellow;
    assert ColorFor(ConfigName(Info)) == ColorGreen;
    assert ColorFor(ConfigName(Error)) == ColorRed;
  }

  /** The other levels zerolog writes (trace, fatal, panic) have no entry
      in the table: UncolouredLevel applies to them. */
  lemma UntabledZerologLevels()
    ensures Upper("trace") !in LevelColorMap && ColorFor(Upper("trace")) == ""
    ensures Upper("fatal") !in LevelColorMap && ColorFor(Upper("fatal")) == ""
    ensures Upper("panic") !in LevelColorMap && ColorFor(Upper("panic")) == ""
  {
    assert Upper("trace") == "TRACE";
    assert Upper("fatal") == "FATAL";
    assert Upper("panic") == "PANIC";
  }

  /** The table has no entry for the configuration spelling "WARNING", and a
      level without an entry is printed without colour but still followed by
      the reset sequence. */
  lemma UncolouredLevel(u: string)
    ensures ColorFor(ConfigName(Warn)) == ""
    ensures u !in LevelColorMap ==> Cell(u, u) == Bracket(u) + ColorReset && Esc in Cell(u, u)
  {
    if u !in LevelColorMap {
      assert Cell(u, u)[|Cell(u, u)| - 4] == Esc;
    }
  }
}
