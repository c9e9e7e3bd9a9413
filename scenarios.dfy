/** Callers of the logger: what a client can conclude from the contracts alone. */
module Scenarios {
  import opened Wrappers
  import opened Levels
  import opened Args
  import opened Records
  import opened Logging
  import Console

  /**
   * Push A, then push B, then log "hi" at INFO: B is handled before A (the stack has B at
   * the front), and both receive the text "hi".
   */
  method PushPushInfo(a: Handler, b: Handler, now: Instant, seqNo: SequenceNo, formatter: FormatFn, sprintf: Sprintf)
    returns (calls: seq<Call>)
    requires a.level == DEBUG && b.level == DEBUG && a.formatter.None? && b.formatter.None?
    modifies seqNo
    ensures Targets(calls) == [b, a]
    ensures forall k :: 0 <= k < |calls| ==> calls[k].Handled? && MessageText(calls[k].record, sprintf) == "hi"
  {
    var l := new Logger("svc");
    l.PushHandler(a);
    l.PushHandler(b);
    assert l.handlers == [b, a];
    calls := l.Info([Str("hi")], now, seqNo, formatter);
    var r := NewRecordValue(seqNo.value, now, "svc", INFO, [Str("hi")], None);
    LastPushedHandledFirst(a, b, r, formatter);
    DispatchMessages([b, a], r, formatter);
    RenderExamples(sprintf);
    assert Rendered(None, [Str("hi")], sprintf) == "hi" by {
      assert Shows([Str("hi")]) == ["hi"];
    }
    forall k | 0 <= k < |calls|
      ensures calls[k].Handled? && MessageText(calls[k].record, sprintf) == "hi"
    {
      assert Targets(calls)[k].formatter.None?;
      if k > 0 {
        assert Targets(calls)[k - 1].formatter.None?;
      }
    }
  }

  /** Closing twice closes every handler exactly once, in stack order, and the second call closes nothing. */
  method CloseTwice(l: Logger) returns (first: seq<Call>, second: seq<Call>)
    requires !l.closed
    modifies l
    ensures l.closed && second == []
    ensures |first| == |l.handlers| && forall k :: 0 <= k < |first| ==> first[k] == Closed(l.handlers[k])
  {
    first := l.Close();
    second := l.Close();
  }

  /** Push then pop does not return the pushed handler unless the stack was empty: pop takes the other end. */
  method PushThenPop(l: Logger, h: Handler) returns (popped: Handler)
    modifies l
    ensures old(l.handlers) == [] ==> popped == h && l.handlers == []
    ensures old(l.handlers) != [] ==>
      popped == old(l.handlers)[|old(l.handlers)| - 1] &&
      l.handlers == [h] + old(l.handlers)[..|old(l.handlers)| - 1]
  {
    l.PushHandler(h);
    popped := l.PopHandler();
  }

  /** Two loggers share one counter: every record of the second call has a larger ID than every record of the first. */
  method TwoLoggers(l1: Logger, l2: Logger, now: Instant, seqNo: SequenceNo, formatter: FormatFn)
    returns (calls1: seq<Call>, calls2: seq<Call>)
    requires seqNo.value as int + 2 < U64
    modifies seqNo
    ensures forall i, j :: 0 <= i < |calls1| && 0 <= j < |calls2| ==>
      calls1[i].Handled? && calls2[j].Handled? && calls1[i].record.id < calls2[j].record.id
  {
    calls1 := l1.Notice([Str("first")], now, seqNo, formatter);
    var id1 := seqNo.value;
    DispatchKeepsFields(l1.handlers, NewRecordValue(id1, now, l1.Name, NOTICE, [Str("first")], None), formatter);
    calls2 := l2.Notice([Str("second")], now, seqNo, formatter);
    DispatchKeepsFields(l2.handlers, NewRecordValue(seqNo.value, now, l2.Name, NOTICE, [Str("second")], None), formatter);
    assert id1 < seqNo.value;
  }

  /**
   * A console handler at INFO (colour off) on logger "svc": `Debugf("x=%d", 1)` reaches it
   * not at all, `Errorf("boom %s", "now")` reaches it once, shown as "[ERROR]" followed by
   * the rendered message and a newline.
   */
  method ConsoleEndToEnd(now: Instant, seqNo: SequenceNo, formatter: FormatFn, sprintf: Sprintf)
    returns (debugCalls: seq<Call>, errorCalls: seq<Call>)
    modifies seqNo
    ensures debugCalls == []
    ensures |errorCalls| == 1 && errorCalls[0].Handled?
    ensures Console.HandleText(Console.NewConsoleHandler(INFO, "windows"), errorCalls[0].record, sprintf)
            == "[ERROR]" + sprintf("boom %s", [Str("now")]) + "\n"
  {
    var c := Console.NewConsoleHandler(INFO, "windows");
    var l := new Logger("svc");
    l.PushHandler(Console.AsHandler(c, 0));
    debugCalls := l.Debugf("x=%d", [Other("1")], now, seqNo, formatter);
    Console.ConsoleAtInfo(c, 0, NewRecordValue(seqNo.value, now, "svc", DEBUG, [Other("1")], Some("x=%d")), formatter, sprintf);
    errorCalls := l.Errorf("boom %s", [Str("now")], now, seqNo, formatter);
    Console.ConsoleAtInfo(c, 0, NewRecordValue(seqNo.value, now, "svc", ERROR, [Str("now")], Some("boom %s")), formatter, sprintf);
  }
}
