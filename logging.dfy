/**
 * The logger (logger.go, type `Logger`): an ordered stack of handlers, a closed flag, and
 * the dispatch loop that turns one log call into a record handed to every accepting handler.
 */
module Logging {
  import opened Wrappers
  import opened Levels
  import opened Args
  import opened Records

  /**
   * What the logger sees of a handler: an identity, the threshold `GetLevel` reports, and,
   * for a `FormattableHandler`, the formatter `GetFormatter` returns (by identity).
   */
  datatype Handler = Handler(id: nat, level: Level, formatter: Option<nat>)

  /** `Formatter.format(record)` for the formatter with the given identity. */
  type FormatFn = (nat, RecordValue) -> string

  /** A call the logger makes into a handler: `Handle` with a copy of the record, or `Close`. */
  datatype Call = Handled(handler: Handler, record: RecordValue) | Closed(handler: Handler)

  /** A handler accepts a record when its threshold is at or below the record's urgency. */
  predicate Accepts(h: Handler, lvl: Level) {
    h.level >= lvl
  }

  /**
   * The calls the dispatch loop makes for record `r` over `hs`, in order. A formattable
   * handler first overwrites the shared message cache with its formatter's text, and the
   * overwrite stays for the handlers after it.
   */
  function Dispatch(hs: seq<Handler>, r: RecordValue, format: FormatFn): (calls: seq<Call>)
    ensures |calls| <= |hs|
    ensures forall k :: 0 <= k < |calls| ==> calls[k].Handled?
    decreases |hs|
  {
    if hs == [] then []
    else if Accepts(hs[0], r.level) then
      var r' := if hs[0].formatter.Some? then r.(message := Some(format(hs[0].formatter.value, r))) else r;
      [Handled(hs[0], r')] + Dispatch(hs[1..], r', format)
    else Dispatch(hs[1..], r, format)
  }

  /** The handlers of `hs` that accept `lvl`, in stack order: an independent statement of the filter. */
  function Accepting(hs: seq<Handler>, lvl: Level): (r: seq<Handler>)
    ensures forall h :: h in r <==> h in hs && Accepts(h, lvl)
  {
    if hs == [] then []
    else (if Accepts(hs[0], lvl) then [hs[0]] else []) + Accepting(hs[1..], lvl)
  }

  /** The handler of every call, in order. */
  function Targets(calls: seq<Call>): (r: seq<Handler>)
    ensures |r| == |calls|
    ensures forall k :: 0 <= k < |calls| ==> r[k] == calls[k].handler
  {
    if calls == [] then [] else [calls[0].handler] + Targets(calls[1..])
  }

  /** The record the call at index `k` starts from: the dispatched record, or the one the previous call received. */
  function Before(calls: seq<Call>, r: RecordValue, k: nat): RecordValue
    requires k <= |calls|
  {
    if k == 0 then r
    else match calls[k - 1]
      case Handled(_, prev) => prev
      case Closed(_) => r
  }

  /**
   * Call `c` hands on the record `prev` as the loop leaves it: re-rendered by the handler's
   * formatter when it has one, untouched otherwise.
   */
  predicate FollowsFrom(c: Call, prev: RecordValue, format: FormatFn) {
    c.Handled? &&
    c.record == match c.handler.formatter
                case Some(f) => prev.(message := Some(format(f, prev)))
                case None => prev
  }

  /** Every call hands on `r` itself, except perhaps for the message cache. */
  predicate KeepsFields(calls: seq<Call>, r: RecordValue) {
    forall k :: 0 <= k < |calls| ==>
      calls[k].Handled? && calls[k].record == r.(message := calls[k].record.message)
  }

  /** Every call follows from the record the call before it handed on. */
  predicate Chained(calls: seq<Call>, r: RecordValue, format: FormatFn) {
    forall k :: 0 <= k < |calls| ==> FollowsFrom(calls[k], Before(calls, r, k), format)
  }

  /** `atomic.AddUint64(&sequenceNo, 1)`: unsigned addition, wrapping after 2^64 - 1. */
  function NextId(n: uint64): (r: uint64)
    ensures n as int < U64 - 1 ==> r as int == n as int + 1
    ensures n as int == U64 - 1 ==> r == 0
  {
    ((n as int + 1) % U64) as uint64
  }

  /** The counter after `calls` log calls starting from `start`. */
  function CounterAfter(start: uint64, calls: nat): uint64 {
    if calls == 0 then start else NextId(CounterAfter(start, calls - 1))
  }

  // ---------------------------------------------------------------------------
  // Properties of dispatch
  // ---------------------------------------------------------------------------

  /**
   * Dispatch calls `Handle` on exactly the accepting handlers, in stack order, and on no
   * other; with no handlers it calls nothing.
   */
  lemma {:induction false} DispatchTargets(hs: seq<Handler>, r: RecordValue, format: FormatFn)
    ensures Targets(Dispatch(hs, r, format)) == Accepting(hs, r.level)
    ensures hs == [] ==> Dispatch(hs, r, format) == []
    decreases |hs|
  {
    if hs != [] {
      var r' := if hs[0].formatter.Some? then r.(message := Some(format(hs[0].formatter.value, r))) else r;
      var rest := Dispatch(hs[1..], if Accepts(hs[0], r.level) then r' else r, format);
      DispatchTargets(hs[1..], if Accepts(hs[0], r.level) then r' else r, format);
      if Accepts(hs[0], r.level) {
        var c := [Handled(hs[0], r')] + rest;
        assert c[1..] == rest;
      }
    }
  }

  /** A handler receives the record if and only if it is on the stack and accepts the level. */
  lemma DispatchReaches(hs: seq<Handler>, r: RecordValue, format: FormatFn, h: Handler)
    ensures h in Targets(Dispatch(hs, r, format)) <==> h in hs && Accepts(h, r.level)
  {
    DispatchTargets(hs, r, format);
  }

  /**
   * Every call is a `Handle`, and each handler receives the dispatched record unchanged
   * except, possibly, for its message cache: the same ID, time, module, level and level name.
   */
  lemma {:induction false} DispatchKeepsFields(hs: seq<Handler>, r: RecordValue, format: FormatFn)
    ensures KeepsFields(Dispatch(hs, r, format), r)
    decreases |hs|
  {
    if hs != [] {
      var r' := if hs[0].formatter.Some? then r.(message := Some(format(hs[0].formatter.value, r))) else r;
      if Accepts(hs[0], r.level) {
        var rest := Dispatch(hs[1..], r', format);
        DispatchKeepsFields(hs[1..], r', format);
        var calls := [Handled(hs[0], r')] + rest;
        assert Dispatch(hs, r, format) == calls;
        forall k | 1 <= k < |calls|
          ensures calls[k] == rest[k - 1]
        {
        }
      } else {
        DispatchKeepsFields(hs[1..], r, format);
        assert Dispatch(hs, r, format) == Dispatch(hs[1..], r, format);
      }
    }
  }

  /**
   * How the message cache evolves along one dispatch: a formattable handler receives its
   * formatter's rendering of the record as the previous handler left it; any other handler
   * receives exactly that record, including a message an earlier formatter wrote.
   */
  lemma {:induction false} DispatchMessages(hs: seq<Handler>, r: RecordValue, format: FormatFn)
    ensures Chained(Dispatch(hs, r, format), r, format)
    decreases |hs|
  {
    if hs != [] {
      var r' := if hs[0].formatter.Some? then r.(message := Some(format(hs[0].formatter.value, r))) else r;
      if Accepts(hs[0], r.level) {
        var rest := Dispatch(hs[1..], r', format);
        DispatchMessages(hs[1..], r', format);
        var calls := [Handled(hs[0], r')] + rest;
        assert Dispatch(hs, r, format) == calls;
        forall k | 0 <= k < |calls|
          ensures FollowsFrom(calls[k], Before(calls, r, k), format)
        {
          if k > 0 {
            assert calls[k] == rest[k - 1];
            if k > 1 {
              assert calls[k - 1] == rest[k - 2];
            }
            assert Before(calls, r, k) == Before(rest, r', k - 1);
          }
        }
      } else {
        DispatchMessages(hs[1..], r, format);
        assert Dispatch(hs, r, format) == Dispatch(hs[1..], r, format);
      }
    }
  }

  /**
   * The shared cache is not reset: when a formattable handler is followed by a plain one
   * and both accept, the plain one receives the formatter's text.
   */
  lemma FormattedTextReachesLaterHandlers(fh: Handler, ph: Handler, r: RecordValue, format: FormatFn)
    requires fh.formatter.Some? && ph.formatter.None?
    requires Accepts(fh, r.level) && Accepts(ph, r.level)
    ensures var calls := Dispatch([fh, ph], r, format);
      |calls| == 2 && calls[1].Handled? && calls[1].record.message == Some(format(fh.formatter.value, r))
  {
    var r' := r.(message := Some(format(fh.formatter.value, r)));
    assert [fh, ph][1..] == [ph];
    assert Dispatch([ph], r', format) == [Handled(ph, r')];
  }

  /** A handler configured for WARNING receives WARNING, ERROR and CRITICAL records and nothing less urgent. */
  lemma WarningThreshold(h: Handler, r: RecordValue, format: FormatFn)
    requires h.level == WARNING
    ensures r.level == DEBUG || r.level == INFO || r.level == NOTICE ==> Dispatch([h], r, format) == []
    ensures r.level == WARNING || r.level == ERROR || r.level == CRITICAL ==>
      Targets(Dispatch([h], r, format)) == [h]
  {
    DispatchTargets([h], r, format);
    assert [h][1..] == [];
  }

  /** With two accepting handlers, the one pushed last (at the front) is handled first. */
  lemma LastPushedHandledFirst(a: Handler, b: Handler, r: RecordValue, format: FormatFn)
    requires Accepts(a, r.level) && Accepts(b, r.level)
    ensures Targets(Dispatch([b, a], r, format)) == [b, a]
  {
    DispatchTargets([b, a], r, format);
    assert [b, a][1..] == [a];
    assert [a][1..] == [];
    assert Accepting([a], r.level) == [a];
  }

  // ---------------------------------------------------------------------------
  // Properties of the sequence counter
  // ---------------------------------------------------------------------------

  /** Without wrap-around, n log calls move the counter forward by exactly n. */
  lemma {:induction false} CounterAfterValue(start: uint64, n: nat)
    requires start as int + n < U64
    ensures CounterAfter(start, n) as int == start as int + n
  {
    if n > 0 {
      CounterAfterValue(start, n - 1);
    }
  }

  /**
   * Record IDs are strictly increasing, hence unique, across the log calls of every
   * logger, as long as the counter does not wrap.
   */
  lemma IdsStrictlyIncrease(start: uint64, i: nat, j: nat)
    requires i < j && start as int + j < U64
    ensures CounterAfter(start, i) < CounterAfter(start, j)
  {
    CounterAfterValue(start, i);
    CounterAfterValue(start, j);
  }

  /** The process-wide `sequenceNo`, shared by every logger. It starts at zero and makes IDs start at 1. */
  class SequenceNo {
    var value: uint64

    constructor ()
      ensures value == 0
    {
      value := 0;
    }
  }

  class Logger {
    var Name: string
    var level: Level
    var handlers: seq<Handler>
    var closed: bool

    /** `NewLogger`: a named logger with no handlers, open, with the zero level. */
    constructor (name: string)
      ensures Name == name && level == CRITICAL && handlers == [] && !closed
    {
      Name, level, handlers, closed := name, CRITICAL, [], false;
    }

    /** `PushHandler` inserts at the FRONT of the stack. */
    method PushHandler(h: Handler)
      modifies this`handlers
      ensures handlers == [h] + old(handlers)
    {
      handlers := [h] + handlers;
    }

    /** `PopHandler` removes and returns the LAST element; the source panics on an empty stack. */
    method PopHandler() returns (h: Handler)
      requires handlers != []
      modifies this`handlers
      ensures h == old(handlers)[|old(handlers)| - 1]
      ensures handlers == old(handlers)[..|old(handlers)| - 1]
    {
      h, handlers := handlers[|handlers| - 1], handlers[..|handlers| - 1];
    }

    method SetHandlers(hs: seq<Handler>)
      modifies this`handlers
      ensures handlers == hs
    {
      handlers := hs;
    }

    method GetHandlers() returns (hs: seq<Handler>)
      ensures hs == handlers
    {
      hs := handlers;
    }

    /**
     * `Close`: the first call marks the logger closed and closes every handler once, in
     * stack order; later calls do nothing.
     */
    method Close() returns (calls: seq<Call>)
      modifies this`closed
      ensures closed
      ensures old(closed) ==> calls == []
      ensures !old(closed) ==> |calls| == |handlers| && forall k :: 0 <= k < |handlers| ==> calls[k] == Closed(handlers[k])
    {
      calls := [];
      if closed {
        return;
      }
      closed := true;
      for i := 0 to |handlers|
        invariant |calls| == i
        invariant forall k :: 0 <= k < i ==> calls[k] == Closed(handlers[k])
      {
        calls := calls + [Closed(handlers[i])];
      }
    }

    /** What one log call at `lvl` does, given the counter before and after it and the calls it made. */
    ghost predicate Logged(before: uint64, after: uint64, lvl: Level, format: Option<string>, args: seq<Arg>,
                           now: Instant, formatter: FormatFn, calls: seq<Call>)
      reads this
    {
      after == NextId(before) &&
      calls == Dispatch(handlers, NewRecordValue(after, now, Name, lvl, args, format), formatter)
    }

    /**
     * `log`: takes the next sequence number, builds the record, and walks the stack,
     * handing a copy of the record to every handler that accepts its level.
     */
    method Log(lvl: Level, format: Option<string>, args: seq<Arg>, now: Instant,
               seqNo: SequenceNo, formatter: FormatFn) returns (calls: seq<Call>)
      modifies seqNo
      ensures Logged(old(seqNo.value), seqNo.value, lvl, format, args, now, formatter, calls)
    {
      seqNo.value := NextId(seqNo.value);
      var initial := NewRecordValue(seqNo.value, now, Name, lvl, args, format);
      var record := new Record(initial);
      calls := [];
      var i := 0;
      while i < |handlers|
        modifies record
        invariant 0 <= i <= |handlers|
        invariant record.Value().level == lvl
        invariant calls + Dispatch(handlers[i..], record.Value(), formatter) == Dispatch(handlers, initial, formatter)
      {
        var h := handlers[i];
        assert handlers[i..] == [h] + handlers[i + 1..];
        if h.level >= lvl {
          if h.formatter.Some? {
            record.message := Some(formatter(h.formatter.value, record.Value()));
          }
          calls := calls + [Handled(h, record.Value())];
        }
        i := i + 1;
      }
    }

    method Fatal(args: seq<Arg>, now: Instant, seqNo: SequenceNo, formatter: FormatFn)
      returns (calls: seq<Call>, exitStatus: int)
      modifies seqNo
      ensures Logged(old(seqNo.value), seqNo.value, CRITICAL, None, args, now, formatter, calls)
      ensures exitStatus == 1
    {
      calls := Log(CRITICAL, None, args, now, seqNo, formatter);
      exitStatus := 1;
    }

    method Fatalf(format: string, args: seq<Arg>, now: Instant, seqNo: SequenceNo, formatter: FormatFn)
      returns (calls: seq<Call>, exitStatus: int)
      modifies seqNo
      ensures Logged(old(seqNo.value), seqNo.value, CRITICAL, Some(format), args, now, formatter, calls)
      ensures exitStatus == 1
    {
      calls := Log(CRITICAL, Some(format), args, now, seqNo, formatter);
      exitStatus := 1;
    }

    method Panic(args: seq<Arg>, now: Instant, seqNo: SequenceNo, formatter: FormatFn)
      returns (calls: seq<Call>, payload: string)
      modifies seqNo
      ensures Logged(old(seqNo.value), seqNo.value, CRITICAL, None, args, now, formatter, calls)
      ensures payload == Sprint(args)
    {
      calls := Log(CRITICAL, None, args, now, seqNo, formatter);
      payload := Sprint(args);
    }

    method Panicf(format: string, args: seq<Arg>, now: Instant, seqNo: SequenceNo, formatter: FormatFn,
                  sprintf: Sprintf)
      returns (calls: seq<Call>, payload: string)
      modifies seqNo
      ensures Logged(old(seqNo.value), seqNo.value, CRITICAL, Some(format), args, now, formatter, calls)
      ensures payload == sprintf(format, args)
    {
      calls := Log(CRITICAL, Some(format), args, now, seqNo, formatter);
      payload := sprintf(format, args);
    }

    method Critical(args: seq<Arg>, now: Instant, seqNo: SequenceNo, formatter: FormatFn) returns (calls: seq<Call>)
      modifies seqNo
      ensures Logged(old(seqNo.value), seqNo.value, CRITICAL, None, args, now, formatter, calls)
    {
      calls := Log(CRITICAL, None, args, now, seqNo, formatter);
    }

    method Criticalf(format: string, args: seq<Arg>, now: Instant, seqNo: SequenceNo, formatter: FormatFn)
      returns (calls: seq<Call>)
      modifies seqNo
      ensures Logged(old(seqNo.value), seqNo.value, CRITICAL, Some(format), args, now, formatter, calls)
    {
      calls := Log(CRITICAL, Some(format), args, now, seqNo, formatter);
    }

    method Error(args: seq<Arg>, now: Instant, seqNo: SequenceNo, formatter: FormatFn) returns (calls: seq<Call>)
      modifies seqNo
      ensures Logged(old(seqNo.value), seqNo.value, ERROR, None, args, now, formatter, calls)
    {
      calls := Log(ERROR, None, args, now, seqNo, formatter);
    }

    method Errorf(format: string, args: seq<Arg>, now: Instant, seqNo: SequenceNo, formatter: FormatFn)
      returns (calls: seq<Call>)
      modifies seqNo
      ensures Logged(old(seqNo.value), seqNo.value, ERROR, Some(format), args, now, formatter, calls)
    {
      calls := Log(ERROR, Some(format), args, now, seqNo, formatter);
    }

    method Warning(args: seq<Arg>, now: Instant, seqNo: SequenceNo, formatter: FormatFn) returns (calls: seq<Call>)
      modifies seqNo
      ensures Logged(old(seqNo.value), seqNo.value, WARNING, None, args, now, formatter, calls)
    {
      calls := Log(WARNING, None, args, now, seqNo, formatter);
    }

    method Warningf(format: string, args: seq<Arg>, now: Instant, seqNo: SequenceNo, formatter: FormatFn)
      returns (calls: seq<Call>)
      modifies seqNo
      ensures Logged(old(seqNo.value), seqNo.value, WARNING, Some(format), args, now, formatter, calls)
    {
      calls := Log(WARNING, Some(format), args, now, seqNo, formatter);
    }

    method Notice(args: seq<Arg>, now: Instant, seqNo: SequenceNo, formatter: FormatFn) returns (calls: seq<Call>)
      modifies seqNo
      ensures Logged(old(seqNo.value), seqNo.value, NOTICE, None, args, now, formatter, calls)
    {
      calls := Log(NOTICE, None, args, now, seqNo, formatter);
    }

    method Noticef(format: string, args: seq<Arg>, now: Instant, seqNo: SequenceNo, formatter: FormatFn)
      returns (calls: seq<Call>)
      modifies seqNo
      ensures Logged(old(seqNo.value), seqNo.value, NOTICE, Some(format), args, now, formatter, calls)
    {
      calls := Log(NOTICE, Some(format), args, now, seqNo, formatter);
    }

    method Info(args: seq<Arg>, now: Instant, seqNo: SequenceNo, formatter: FormatFn) returns (calls: seq<Call>)
      modifies seqNo
      ensures Logged(old(seqNo.value), seqNo.value, INFO, None, args, now, formatter, calls)
    {
      calls := Log(INFO, None, args, now, seqNo, formatter);
    }

    method Infof(format: string, args: seq<Arg>, now: Instant, seqNo: SequenceNo, formatter: FormatFn)
      returns (calls: seq<Call>)
      modifies seqNo
      ensures Logged(old(seqNo.value), seqNo.value, INFO, Some(format), args, now, formatter, calls)
    {
      calls := Log(INFO, Some(format), args, now, seqNo, formatter);
    }

    method Debug(args: seq<Arg>, now: Instant, seqNo: SequenceNo, formatter: FormatFn) returns (calls: seq<Call>)
      modifies seqNo
      ensures Logged(old(seqNo.value), seqNo.value, DEBUG, None, args, now, formatter, calls)
    {
      calls := Log(DEBUG, None, args, now, seqNo, formatter);
    }

    method Debugf(format: string, args: seq<Arg>, now: Instant, seqNo: SequenceNo, formatter: FormatFn)
      returns (calls: seq<Call>)
      modifies seqNo
      ensures Logged(old(seqNo.value), seqNo.value, DEBUG, Some(format), args, now, formatter, calls)
    {
      calls := Log(DEBUG, Some(format), args, now, seqNo, formatter);
    }
  }
}
