/** The engine goroutine of the tool path as the loop it is, against the events its channel
    delivers.  The context and the choices of its selects are arbitrary: consultation k of
    the context finds it done when ctx(k), and a select whose context is done still sends
    when keep(k). */
module LlmEngine {
  import opened Basics
  import opened RuntimeEvents
  import opened TurnPipeline

  /** Once a context is done it stays done. */
  ghost predicate Monotone(ctx: nat -> bool) {
    forall j: nat, k: nat :: j <= k && ctx(j) ==> ctx(k)
  }

  method Emit(out: seq<Event>, ev: Event, tick: nat, ctx: nat -> bool, keep: nat -> bool) returns (r: seq<Event>)
    ensures r == out + [ev] || (r == out && ctx(tick))
  {
    if !ctx(tick) || keep(tick) {
      r := out + [ev];
    } else {
      r := out;
    }
  }

  /** Everything before the current event went out, or the context is done and at most the
      last event was lost. */
  ghost predicate Sent(inbox: seq<StreamEvent>, i: nat, out: seq<Event>, done: bool) {
    i <= |inbox| && (out == Translation(inbox[..i]) || (done && 0 < i && out == Translation(inbox[..i - 1])))
  }

  method RunWithTools(start: Option<string>, inbox: seq<StreamEvent>, ctx: nat -> bool, keep: nat -> bool)
    returns (out: seq<Event>)
    requires Monotone(ctx)
    ensures start.None? ==> exists n: nat :: ToolOutput(inbox, n, out)
    ensures start.Some? ==> out == [] || FailureOutput([], start.value, out)
    ensures start.None? && ctx(0) ==> out == [] || out == [LoopDone(Cancel, Usage(0, 0))]
    ensures (forall k: nat :: !ctx(k)) ==>
              out == if start.Some? then Script(ToolsRefused(start.value)) else ToolScript(inbox)
  {
    out := [];
    var tick := 0;
    if start.Some? {
      out := Emit(out, LlmError(start.value), tick, ctx, keep);
      out := Emit(out, ERROR_DONE, tick + 1, ctx, keep);
      return;
    }
    var reason: Option<FinishReason> := None;
    var usage := Usage(0, 0);
    var i := 0;
    while i < |inbox|
      invariant i <= |inbox| && ErrorFree(inbox, i)
      invariant Sent(inbox, i, out, ctx(tick))
      invariant usage == LastUsage(inbox[..i])
      invariant reason.None? && (ctx(0) ==> i == 0 && tick == 0 && out == [])
    {
      if ctx(tick) {
        reason := Some(Cancel);
        break;
      }
      var ev := inbox[i];
      assert inbox[..i + 1][..i] == inbox[..i];
      usage := if ev.usage.Some? then ev.usage.value else usage;
      match Translate(ev) {
        case Fails(m) =>
          out := Emit(out, LlmError(m), tick + 1, ctx, keep);
          out := Emit(out, ERROR_DONE, tick + 2, ctx, keep);
          LoopFails(inbox, i, m, out);
          return;
        case Forwards(e) =>
          out := Emit(out, e, tick + 1, ctx, keep);
        case Skips =>
      }
      tick := tick + 2;
      i := i + 1;
    }
    if reason.None? {
      reason := Some(if ctx(tick) then Cancel else Stop);
    }
    LoopEnds(inbox, i, out, ctx(tick), reason.value);
    out := Emit(out, LoopDone(reason.value, usage), tick + 1, ctx, keep);
  }

  /** An error ends the output where it is met. */
  lemma LoopFails(inbox: seq<StreamEvent>, i: nat, m: string, out: seq<Event>)
    requires i < |inbox| && ErrorFree(inbox, i) && inbox[i].err == Some(m)
    ensures out == Translation(inbox[..i]) || FailureOutput(Translation(inbox[..i]), m, out) ==>
              exists n: nat :: ToolOutput(inbox, n, out)
    ensures ToolScript(inbox) == Translation(inbox[..i]) + [LlmError(m), ERROR_DONE]
  {
    FirstErrorIs(inbox, i);
    var body := Translation(inbox[..i]);
    assert out == body || FailureOutput(body, m, out) ==> ToolOutput(inbox, i, out);
  }

  /** After the loop the terminal Done may go out or be lost. */
  lemma LoopEnds(inbox: seq<StreamEvent>, i: nat, out: seq<Event>, done: bool, reason: FinishReason)
    requires i <= |inbox| && ErrorFree(inbox, i) && Sent(inbox, i, out, done)
    requires reason == Cancel || (reason == Stop && i == |inbox| && !done)
    ensures exists n: nat :: ToolOutput(inbox, n, out)
    ensures exists n: nat :: ToolOutput(inbox, n, out + [LoopDone(reason, LastUsage(inbox[..i]))])
    ensures reason == Stop ==> out + [LoopDone(reason, LastUsage(inbox[..i]))] == ToolScript(inbox)
  {
    var n := if out == Translation(inbox[..i]) then i else i - 1;
    if reason == Stop {
      assert inbox[..i] == inbox;
      FirstErrorIs(inbox, i);
    } else {
      assert CancelOutput(inbox, n, out + [LoopDone(Cancel, LastUsage(inbox[..i]))]);
    }
    assert ToolOutput(inbox, n, out) && ToolOutput(inbox, n, out + [LoopDone(reason, LastUsage(inbox[..i]))]);
  }
}
