/**
 * The operands of a variadic `...interface{}` log call, and the two ways Go's fmt package
 * lays them out without a template: `Sprintln` (used to render a record) and `Sprint`
 * (used for the payload of `Panic`).
 */
module Args {

  /**
   * One operand. `Str` is an operand whose dynamic kind is string; `Other` is any other
   * operand (a number, a struct, nil, ...), represented by the text its `%v` verb prints.
   */
  datatype Arg = Str(s: string) | Other(text: string)

  /** The text fmt prints for one operand under `%v`. */
  function Show(a: Arg): string {
    match a
    case Str(s) => s
    case Other(t) => t
  }

  /** The texts of all operands, in order. */
  function Shows(args: seq<Arg>): (r: seq<string>)
    ensures |r| == |args|
    ensures forall k :: 0 <= k < |args| ==> r[k] == Show(args[k])
  {
    if args == [] then [] else [Show(args[0])] + Shows(args[1..])
  }

  /** The texts joined with one space between neighbours; empty for no texts. */
  function JoinSpaces(ss: seq<string>): string {
    if |ss| == 0 then ""
    else if |ss| == 1 then ss[0]
    else ss[0] + " " + JoinSpaces(ss[1..])
  }

  /** Plain concatenation of the texts. */
  function Concat(ss: seq<string>): string {
    if ss == [] then "" else ss[0] + Concat(ss[1..])
  }

  /** `fmt.Sprintln`: a space between every two operands, always, then a newline. */
  function Sprintln(args: seq<Arg>): (r: string)
    ensures |r| > 0 && r[|r| - 1] == '\n'
  {
    JoinSpaces(Shows(args)) + "\n"
  }

  /**
   * `fmt.Sprint`: a space is written before an operand (other than the first) only when
   * neither it nor the operand before it is a string.
   */
  function Sprint(args: seq<Arg>): (r: string)
    ensures |r| >= |Concat(Shows(args))|
    ensures args != [] ==> |r| <= |Concat(Shows(args))| + |args| - 1
  {
    if args == [] then "" else Show(args[0]) + SprintAfter(args[1..], args[0].Str?)
  }

  /** The rest of `Sprint`'s output, given whether the previous operand was a string. */
  function SprintAfter(args: seq<Arg>, prevString: bool): (r: string)
    ensures |Concat(Shows(args))| <= |r| <= |Concat(Shows(args))| + |args|
  {
    if args == [] then ""
    else
      var isString := args[0].Str?;
      (if !isString && !prevString then " " else "") + Show(args[0]) + SprintAfter(args[1..], isString)
  }

  /** Splits a text at every space, as `strings.Split(s, " ")` does: n spaces give n + 1 fields. */
  function SplitSpaces(s: string): (r: seq<string>)
    ensures |r| >= 1
  {
    if s == [] then [""]
    else
      var rest := SplitSpaces(s[1..]);
      if s[0] == ' ' then [""] + rest else [[s[0]] + rest[0]] + rest[1..]
  }

  // ---------------------------------------------------------------------------
  // Properties
  // ---------------------------------------------------------------------------

  /** Removing the newline `Sprintln` appends leaves exactly the space-joined operands. */
  lemma SprintlnStripped(args: seq<Arg>)
    ensures var line := Sprintln(args); line[..|line| - 1] == JoinSpaces(Shows(args))
    ensures args == [] ==> Sprintln(args) == "\n"
  {
    var j := JoinSpaces(Shows(args));
    assert Sprintln(args) == j + "\n";
    assert (j + "\n")[..|j|] == j;
  }

  /** A text without spaces is one field. */
  lemma {:induction false} SplitWord(a: string)
    requires ' ' !in a
    ensures SplitSpaces(a) == [a]
  {
    if a != [] {
      SplitWord(a[1..]);
      assert [a[0]] + a[1..] == a;
    }
  }

  /** Splitting a word, a space and the rest gives the word, then the fields of the rest. */
  lemma {:induction false} SplitAfterWord(a: string, b: string)
    requires ' ' !in a
    ensures SplitSpaces(a + " " + b) == [a] + SplitSpaces(b)
  {
    var s := a + " " + b;
    if a == [] {
      assert s[0] == ' ' && s[1..] == b;
    } else {
      assert s[0] == a[0];
      assert s[1..] == a[1..] + " " + b;
      SplitAfterWord(a[1..], b);
      assert [a[0]] + a[1..] == a;
    }
  }

  /**
   * The space-join loses nothing when no operand text contains a space: splitting the
   * joined text at its spaces gives the operand texts back.
   */
  lemma {:induction false} SplitJoinSpaces(ss: seq<string>)
    requires |ss| > 0
    requires forall k :: 0 <= k < |ss| ==> ' ' !in ss[k]
    ensures SplitSpaces(JoinSpaces(ss)) == ss
  {
    if |ss| == 1 {
      SplitWord(ss[0]);
    } else {
      SplitJoinSpaces(ss[1..]);
      SplitAfterWord(ss[0], JoinSpaces(ss[1..]));
      assert [ss[0]] + ss[1..] == ss;
    }
  }

  /** Joining puts exactly |ss| - 1 separating spaces between the texts. */
  lemma {:induction false} JoinSpacesLength(ss: seq<string>)
    requires |ss| > 0
    ensures |JoinSpaces(ss)| == |Concat(ss)| + |ss| - 1
  {
    if |ss| > 1 {
      JoinSpacesLength(ss[1..]);
    }
  }

  /** `Sprint` of string operands only is their plain concatenation: no spaces at all. */
  lemma {:induction false} SprintOfStrings(args: seq<Arg>)
    requires forall k :: 0 <= k < |args| ==> args[k].Str?
    ensures Sprint(args) == Concat(Shows(args))
  {
    if args != [] {
      SprintAfterStrings(args[1..], true);
      assert Shows(args)[1..] == Shows(args[1..]);
    }
  }

  lemma {:induction false} SprintAfterStrings(args: seq<Arg>, prevString: bool)
    requires forall k :: 0 <= k < |args| ==> args[k].Str?
    ensures SprintAfter(args, prevString) == Concat(Shows(args))
  {
    if args != [] {
      SprintAfterStrings(args[1..], true);
      assert SprintAfter(args, prevString) == Show(args[0]) + SprintAfter(args[1..], true);
      assert Shows(args)[1..] == Shows(args[1..]);
      assert Concat(Shows(args)) == Show(args[0]) + Concat(Shows(args[1..]));
    }
  }

  /** `Sprint` of non-string operands only spaces them like `Sprintln`, without the newline. */
  lemma {:induction false} SprintOfNonStrings(args: seq<Arg>)
    requires forall k :: 0 <= k < |args| ==> args[k].Other?
    ensures Sprint(args) == JoinSpaces(Shows(args))
  {
    if args != [] {
      SprintAfterNonStrings(args[1..]);
      assert Shows(args)[1..] == Shows(args[1..]);
      if |args| > 1 {
        assert JoinSpaces(Shows(args)) == Show(args[0]) + " " + JoinSpaces(Shows(args[1..]));
      }
    }
  }

  lemma {:induction false} SprintAfterNonStrings(args: seq<Arg>)
    requires forall k :: 0 <= k < |args| ==> args[k].Other?
    ensures args != [] ==> SprintAfter(args, false) == " " + JoinSpaces(Shows(args))
    ensures args == [] ==> SprintAfter(args, false) == ""
  {
    if |args| > 1 {
      SprintAfterNonStrings(args[1..]);
      assert Shows(args)[1..] == Shows(args[1..]);
      assert JoinSpaces(Shows(args)) == Show(args[0]) + " " + JoinSpaces(Shows(args[1..]));
    }
  }

  /** Two strings "a" and "b" render as "a b" under `Sprintln` with the newline stripped. */
  lemma SprintlnExample()
    ensures var line := Sprintln([Str("a"), Str("b")]); line[..|line| - 1] == "a b"
  {
    SprintlnStripped([Str("a"), Str("b")]);
  }
}
