/** Severity levels of the logger (logger.go, type `Level`). */
module Levels {

  /** `Level` is a Go `uint8`. Smaller ranks are more severe. */
  newtype Level = x: int | 0 <= x < 256 {

    /** `Level.String`: the canonical name of a rank, with a sentinel for the rest. */
    function String(): (r: string)
      ensures r == "UNKNOWN" <==> this > DEBUG
      ensures this <= DEBUG ==> r == Names[this as int]
    {
      // `l < 0` can never hold for an unsigned rank; it is kept as in the source
      if this < 0 || this > 5 then "UNKNOWN" else Names[this as int]
    }
  }

  const CRITICAL: Level := 0
  const ERROR: Level := 1
  const WARNING: Level := 2
  const NOTICE: Level := 3
  const INFO: Level := 4
  const DEBUG: Level := 5

  /** The names table, indexed by rank. */
  const Names: seq<string> := ["CRITICAL", "ERROR", "WARNING", "NOTICE", "INFO", "DEBUG"]

  /** Every defined rank has its own name, and every other rank is "UNKNOWN". */
  lemma NamesOfLevels(l: Level)
    ensures CRITICAL.String() == "CRITICAL" && ERROR.String() == "ERROR"
    ensures WARNING.String() == "WARNING" && NOTICE.String() == "NOTICE"
    ensures INFO.String() == "INFO" && DEBUG.String() == "DEBUG"
    ensures l > DEBUG ==> l.String() == "UNKNOWN"
  {
  }

  /** The name mapping loses nothing on the defined ranks: distinct ranks, distinct names. */
  lemma NameIdentifiesLevel(a: Level, b: Level)
    requires a <= DEBUG && b <= DEBUG
    ensures a.String() == b.String() <==> a == b
  {
    if a != b {
      assert Names[a as int] != Names[b as int] by {
        assert Names[a as int][0] != Names[b as int][0] || |Names[a as int]| != |Names[b as int]|;
      }
    }
  }
}
