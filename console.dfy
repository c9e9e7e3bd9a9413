/** The console handler (handler/console_handler.go): a threshold and a colour-coded level label. */
module Console {
  import opened Wrappers
  import opened Levels
  import opened Records
  import Logging

  const Esc: char := 27 as char

  /** The ANSI palette: yellow for warnings, red for errors, blue for the rest, then reset. */
  const Yellow: string := [Esc] + "[90;43m"
  const Red: string := [Esc] + "[97;41m"
  const Blue: string := [Esc] + "[97;44m"
  const Reset: string := [Esc] + "[0m"

  datatype ConsoleHandler = ConsoleHandler(level: Level, disableColor: bool)

  /** `NewConsoleHandler`: the given threshold; colour is off exactly on Windows (`goos` is `runtime.GOOS`). */
  function NewConsoleHandler(lvl: Level, goos: string): (h: ConsoleHandler)
    ensures h.level == lvl
    ensures h.disableColor <==> goos == "windows"
  {
    var disableColor := if goos == "windows" then true else false;
    ConsoleHandler(lvl, disableColor)
  }

  function GetLevel(h: ConsoleHandler): (l: Level)
    ensures l == h.level
  {
    h.level
  }

  /**
   * `getLevelColor`: the bracketed level name, coloured by severity when colour is on.
   * A rank outside the six levels matches no colour branch and gets the plain label.
   * (`fmt.Sprintf` of a text without `%` and with no operands is that text.)
   */
  function LevelColor(h: ConsoleHandler, lvl: Level): (r: string)
    ensures |r| >= 2 && r[0] == '[' && r[|r| - 1] == ']'
  {
    var colored :=
      if !h.disableColor then
        if lvl == DEBUG || lvl == INFO || lvl == NOTICE then "[" + Blue + lvl.String() + Reset + "]"
        else if lvl == WARNING then "[" + Yellow + lvl.String() + Reset + "]"
        else if lvl == ERROR || lvl == CRITICAL then "[" + Red + lvl.String() + Reset + "]"
        else ""
      else "";
    if colored == "" then "[" + lvl.String() + "]" else colored
  }

  /** The colour a defined level is shown in: red up to ERROR, yellow for WARNING, blue after. */
  function ColorOf(lvl: Level): string
    requires lvl <= DEBUG
  {
    if lvl <= ERROR then Red else if lvl == WARNING then Yellow else Blue
  }

  /**
   * The text `Handle` passes to `fmt.Printf` as its FORMAT: the label, then the record's
   * message, then a newline, with nothing in between.
   */
  function HandleText(h: ConsoleHandler, r: RecordValue, sprintf: Sprintf): (s: string)
    ensures |s| >= 3 && s[0] == '[' && s[|s| - 1] == '\n'
  {
    LevelColor(h, r.level) + MessageText(r, sprintf) + "\n"
  }

  /** What `Handle` writes to standard output: `HandleText` used as a printf template with no operands. */
  function HandleOutput(h: ConsoleHandler, r: RecordValue, sprintf: Sprintf): string {
    sprintf(HandleText(h, r, sprintf), [])
  }

  /** `Close` never fails: it returns a nil error. */
  function Close(h: ConsoleHandler): (err: Option<string>)
    ensures err.None?
  {
    None
  }

  /** The console handler as the logger sees it: its threshold, and no formatter. */
  function AsHandler(h: ConsoleHandler, id: nat): (lh: Logging.Handler)
    ensures lh.id == id && lh.level == GetLevel(h) && lh.formatter.None?
  {
    Logging.Handler(id, h.level, None)
  }

  // ---------------------------------------------------------------------------
  // Properties
  // ---------------------------------------------------------------------------

  /** The threshold reported is exactly the one given at construction. */
  lemma GetLevelOfNew(lvl: Level, goos: string)
    ensures GetLevel(NewConsoleHandler(lvl, goos)) == lvl
  {
  }

  /** With colour off, every rank gets the plain label "[" + name + "]". */
  lemma PlainLabel(h: ConsoleHandler, lvl: Level)
    requires h.disableColor
    ensures LevelColor(h, lvl) == "[" + lvl.String() + "]"
  {
  }

  /** With colour on, a defined level's name sits between its colour and the reset code, inside brackets. */
  lemma ColoredLabel(h: ConsoleHandler, lvl: Level)
    requires !h.disableColor && lvl <= DEBUG
    ensures LevelColor(h, lvl) == "[" + ColorOf(lvl) + lvl.String() + Reset + "]"
  {
    var lbl := "[" + ColorOf(lvl) + lvl.String() + Reset + "]";
    assert |lbl| > 0;
  }

  /** A rank outside the six levels is "[UNKNOWN]", colour or not. */
  lemma UnknownLabel(h: ConsoleHandler, lvl: Level)
    requires lvl > DEBUG
    ensures LevelColor(h, lvl) == "[UNKNOWN]"
  {
  }

  /** The three palette colours are distinct, so the three severity groups look different. */
  lemma PaletteDistinct()
    ensures Red != Yellow && Red != Blue && Yellow != Blue
  {
    assert Red[3] != Yellow[3] && Yellow[3] != Blue[3];
    assert Red[6] != Blue[6];
  }

  /** The handed-over text splits into the label, the message and the newline, with no space added. */
  lemma HandleTextShape(h: ConsoleHandler, r: RecordValue, sprintf: Sprintf)
    ensures var s := HandleText(h, r, sprintf); var lvlText := LevelColor(h, r.level);
      |s| == |lvlText| + |MessageText(r, sprintf)| + 1 &&
      s[..|lvlText|] == lvlText &&
      s[|lvlText|..|s| - 1] == MessageText(r, sprintf) &&
      s[|s| - 1] == '\n'
  {
    var lvlText := LevelColor(h, r.level);
    var m := MessageText(r, sprintf);
    var s := lvlText + m + "\n";
    assert s[..|lvlText|] == lvlText;
    assert s[|lvlText|..|s| - 1] == m;
  }

  /** No label contains `%`: the level names and the palette codes are free of printf verbs. */
  lemma LabelHasNoPercent(h: ConsoleHandler, lvl: Level)
    ensures '%' !in LevelColor(h, lvl)
  {
  }

  /**
   * What is printed. A printf format without `%` is copied unchanged, so when the message
   * holds no `%` the line written is exactly the label, the message and a newline.
   */
  lemma HandleOutputVerbatim(h: ConsoleHandler, r: RecordValue, sprintf: Sprintf)
    requires forall t :: '%' !in t ==> sprintf(t, []) == t
    requires '%' !in MessageText(r, sprintf)
    ensures HandleOutput(h, r, sprintf) == HandleText(h, r, sprintf)
    ensures HandleOutput(h, r, sprintf) == LevelColor(h, r.level) + MessageText(r, sprintf) + "\n"
  {
    LabelHasNoPercent(h, r.level);
    assert '%' !in HandleText(h, r, sprintf);
  }

  /**
   * A console handler at INFO alone on a stack: DEBUG records produce no call, and an
   * ERROR record produces one `Handle`, whose text (colour off) is "[ERROR]", the
   * record's message and a newline.
   */
  lemma ConsoleAtInfo(c: ConsoleHandler, id: nat, r: RecordValue, format: Logging.FormatFn, sprintf: Sprintf)
    requires c.level == INFO && c.disableColor
    ensures r.level == DEBUG ==> Logging.Dispatch([AsHandler(c, id)], r, format) == []
    ensures r.level == ERROR ==>
      var calls := Logging.Dispatch([AsHandler(c, id)], r, format);
      calls == [Logging.Handled(AsHandler(c, id), r)] &&
      HandleText(c, calls[0].record, sprintf) == "[ERROR]" + MessageText(r, sprintf) + "\n"
  {
    assert [AsHandler(c, id)][1..] == [];
    PlainLabel(c, r.level);
  }
}
