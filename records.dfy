/** Log records (logger.go, type `Record`) and their cached rendering. */
module Records {
  import opened Wrappers
  import opened Levels
  import opened Args

  const U64: int := 0x1_0000_0000_0000_0000

  /** Go's `uint64`, the type of record IDs and of the process-wide sequence counter. */
  newtype uint64 = x: int | 0 <= x < U64

  /** A point in time, as `time.Now()` returns it; supplied by the caller of the logger. */
  datatype Instant = Instant(nanos: int)

  /**
   * `fmt.Sprintf(template, args...)`: template substitution is not modelled, so every
   * operation that needs it takes it as a parameter.
   */
  type Sprintf = (string, seq<Arg>) -> string

  /**
   * The contents of a record at one moment: what a handler receives when it is passed
   * `*record`. `message` is the cache of the rendered text (None for a nil slice) and
   * `format` the optional printf template.
   */
  datatype RecordValue = RecordValue(
    id: uint64,
    time: Instant,
    moduleName: string,
    level: Level,
    levelName: string,
    args: seq<Arg>,
    message: Option<string>,
    format: Option<string>)

  /** What `Message` computes when its cache is empty: the template applied, or the operands spaced. */
  function Rendered(format: Option<string>, args: seq<Arg>, sprintf: Sprintf): (r: string)
    ensures format.None? ==> r == JoinSpaces(Shows(args))
    ensures format.Some? ==> r == sprintf(format.value, args)
  {
    match format
    case Some(f) => sprintf(f, args)
    case None =>
      // Fprintln, then drop the trailing newline
      SprintlnStripped(args);
      var line := Sprintln(args);
      line[..|line| - 1]
  }

  /** The text `Message` returns for a record in state `v`. */
  function MessageText(v: RecordValue, sprintf: Sprintf): (text: string)
    ensures v.message.Some? ==> text == v.message.value
    ensures v.message.None? && v.format.None? ==> text == JoinSpaces(Shows(v.args))
    ensures v.message.None? && v.format.Some? ==> text == sprintf(v.format.value, v.args)
  {
    if v.message.Some? then v.message.value else Rendered(v.format, v.args, sprintf)
  }

  /**
   * The cache after `Message` on a record in state `v`. A template that prints nothing
   * leaves Go's byte buffer nil, so the cache then stays empty; the untemplated path always
   * wrote a newline first, so its buffer is never nil.
   */
  function CachedAfter(v: RecordValue, sprintf: Sprintf): (m: Option<string>)
    ensures m.Some? ==> m.value == MessageText(v, sprintf)
    ensures m.None? <==> v.message.None? && v.format.Some? && MessageText(v, sprintf) == ""
  {
    if v.message.Some? then v.message
    else
      var text := Rendered(v.format, v.args, sprintf);
      if v.format.Some? && text == "" then None else Some(text)
  }

  /** A record as `log` builds it: a fresh record with an empty cache. */
  function NewRecordValue(id: uint64, time: Instant, moduleName: string, level: Level,
                          args: seq<Arg>, format: Option<string>): (v: RecordValue)
    ensures v.levelName == level.String() && v.message.None?
  {
    RecordValue(id, time, moduleName, level, level.String(), args, None, format)
  }

  /**
   * A record as the logger holds it. Only the message cache is ever written after
   * construction, by `Message` and by the logger's dispatch loop.
   */
  class Record {
    const ID: uint64
    const Time: Instant
    const Module: string
    const Level: Levels.Level
    const LevelName: string
    const Args: seq<Arg>
    var message: Option<string>
    const fmt: Option<string>

    /** The record's current contents, as a value. */
    function Value(): RecordValue
      reads this
    {
      RecordValue(ID, Time, Module, Level, LevelName, Args, message, fmt)
    }

    constructor (v: RecordValue)
      ensures Value() == v
    {
      ID, Time, Module, Level, LevelName, Args := v.id, v.time, v.moduleName, v.level, v.levelName, v.args;
      message, fmt := v.message, v.format;
    }

    /**
     * `Record.Message`: returns the cached text when there is one; otherwise renders,
     * caches (unless the buffer stayed nil) and returns the rendering.
     */
    method Message(sprintf: Sprintf) returns (text: string)
      modifies this`message
      ensures text == MessageText(old(Value()), sprintf)
      ensures Value() == old(Value()).(message := CachedAfter(old(Value()), sprintf))
    {
      if message.None? {
        var buf: Option<string>;
        match fmt {
          case Some(f) =>
            var written := sprintf(f, Args);
            buf := if written == "" then None else Some(written);
          case None =>
            var line := Sprintln(Args);
            buf := Some(line[..|line| - 1]);
        }
        message := buf;
      }
      text := if message.Some? then message.value else "";
    }
  }

  // ---------------------------------------------------------------------------
  // Properties
  // ---------------------------------------------------------------------------

  /**
   * Rendering is idempotent: a second `Message` returns the same text as the first and
   * leaves the record as the first left it.
   */
  lemma MessageIdempotent(v: RecordValue, sprintf: Sprintf)
    ensures var w := v.(message := CachedAfter(v, sprintf));
      MessageText(w, sprintf) == MessageText(v, sprintf) && CachedAfter(w, sprintf) == w.message
  {
  }

  /** Once the cache is set, the operands and template no longer matter. */
  lemma CachedTextWins(v: RecordValue, args: seq<Arg>, format: Option<string>, sprintf: Sprintf)
    requires v.message.Some?
    ensures MessageText(v.(args := args, format := format), sprintf) == v.message.value
  {
  }

  /** Strings "a" and "b" without a template render as "a b"; no operands render as "". */
  lemma RenderExamples(sprintf: Sprintf)
    ensures Rendered(None, [Str("a"), Str("b")], sprintf) == "a b"
    ensures Rendered(None, [], sprintf) == ""
  {
    assert Shows([Str("a"), Str("b")]) == ["a", "b"];
  }
}
