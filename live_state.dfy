/**
 * The calculator state machine of frontend/src/lib/calculator-state.ts, the
 * version the UI uses.
 *
 * The first half gives each transition as a function on snapshots; the class
 * `CalculatorState` at the end keeps the same fields and changes them in
 * place, and each of its methods is proved to move its snapshot exactly as the
 * matching function says. The remote arithmetic call is an oracle: every
 * instruction comes with the `Outcome` the client would settle with, used only
 * when the instruction actually calls it.
 */
module LiveState {
  import opened Wrappers
  import opened ApiClient
  import opened RemoteCall
  import opened Numerics
  import Instructions

  /** `DIGITS` and `OPERATORS` of this file; `INSTRUCTIONS` is the two together. */
  const DigitChars: string := "0123456789."
  const OperatorChars: string := "+-*/^%scdt="
  const InstructionChars: string := DigitChars + OperatorChars

  /** `isInstruction` */
  predicate IsInstruction(inst: string)
    ensures IsInstruction(inst) <==> |inst| == 1 && ('0' <= inst[0] <= '9' || inst[0] in ".+-*/^%scdt=")
  {
    |inst| == 1 && inst[0] in InstructionChars
  }

  /** The message `handle` throws for anything outside the alphabet. */
  function InvalidMessage(inst: string): string {
    "Invalid instruction: " + inst
  }

  /** `CalculatorSnapshot`: all six state fields; `null` is `None`. */
  datatype CalculatorSnapshot = CalculatorSnapshot(
    display: string,
    operand: Option<string>,
    operator: Option<char>,
    resetDisplay: bool,
    error: Option<string>,
    processing: bool)

  /** The field initialisers of the class. */
  const Initial: CalculatorSnapshot := CalculatorSnapshot("0", None, None, false, None, false)

  /** `if (this.error)`: JavaScript truthiness, so an empty message counts as no error. */
  predicate HasError(s: CalculatorSnapshot) {
    s.error.Some? && s.error.value != ""
  }

  /** What holds between two instructions: no call is in flight, an operand
      is pending exactly when an operator is, and a pending operator is one the
      switch in `calculate` knows. */
  ghost predicate Consistent(s: CalculatorSnapshot) {
    !s.processing && (s.operand.Some? <==> s.operator.Some?)
    && (s.operator.Some? ==> s.operator.value in "+-*/^%s")
  }

  /** `getDisplay`: `this.error || this.display`. */
  function DisplayText(s: CalculatorSnapshot): (r: string)
    ensures HasError(s) ==> r == s.error.value && r != ""
    ensures !HasError(s) ==> r == s.display
  {
    if HasError(s) then s.error.value else s.display
  }

  /** `getExpression`: nothing under an error, else "operand operator" when both are pending. */
  function ExpressionText(s: CalculatorSnapshot): (r: string)
    ensures r != "" <==> !HasError(s) && s.operand.Some? && s.operator.Some?
    ensures r != "" ==> r == s.operand.value + " " + [s.operator.value]
  {
    if HasError(s) then ""
    else if s.operand.Some? && s.operator.Some? then s.operand.value + " " + [s.operator.value]
    else ""
  }

  /** `handleDigit`: an error first resets everything; then the digit starts a
      fresh number, replaces a lone zero, or is appended. */
  function DigitStep(s: CalculatorSnapshot, d: char): (r: CalculatorSnapshot)
    requires '0' <= d <= '9'
    ensures !HasError(r) && !r.resetDisplay
    ensures HasError(s) ==> r == Initial.(display := [d])
    ensures !HasError(s) && (s.resetDisplay || s.display == "0") ==> r == s.(display := [d], resetDisplay := false)
    ensures !HasError(s) && !s.resetDisplay && s.display != "0" ==> r == s.(display := s.display + [d])
    ensures Instructions.DotCount(r.display) <= Instructions.DotCount(s.display)
  {
    var t := if HasError(s) then Initial else s;
    if t.resetDisplay then t.(display := [d], resetDisplay := false)
    else if t.display == "0" then t.(display := [d])
    else t.(display := t.display + [d])
  }

  /** `handleDot`: like a digit, but starting a fresh number gives "0." and a
      numeral that already has a point is left alone. */
  function DotStep(s: CalculatorSnapshot): (r: CalculatorSnapshot)
    ensures !HasError(r) && !r.resetDisplay && '.' in r.display
    ensures HasError(s) ==> r == Initial.(display := "0.")
    ensures !HasError(s) && s.resetDisplay ==> r == s.(display := "0.", resetDisplay := false)
    ensures !HasError(s) && !s.resetDisplay && '.' in s.display ==> r == s
    ensures !HasError(s) && !s.resetDisplay && '.' !in s.display ==> r == s.(display := s.display + ".")
    ensures Instructions.DotCount(r.display) == 1 || (r == s && Instructions.DotCount(s.display) > 1)
  {
    var t := if HasError(s) then Initial else s;
    if t.resetDisplay then t.(display := "0.", resetDisplay := false)
    else if '.' !in t.display then t.(display := t.display + ".")
    else t
  }

  /** `handleClear`: display, operand, operator, flag and error back to their
      defaults; `processing` is not touched. */
  function ClearStep(s: CalculatorSnapshot): (r: CalculatorSnapshot)
    ensures r == Initial.(processing := s.processing)
  {
    s.(display := "0", operand := None, operator := None, resetDisplay := false, error := None)
  }

  /** `handleDelete`: under an error or a fresh result nothing changes;
      otherwise the last character goes, and a single character becomes "0". */
  function DeleteStep(s: CalculatorSnapshot): (r: CalculatorSnapshot)
    ensures r == s.(display := r.display)
    ensures HasError(s) || s.resetDisplay ==> r == s
    ensures !HasError(s) && !s.resetDisplay && |s.display| > 1 ==>
              r.display + [s.display[|s.display| - 1]] == s.display
    ensures !HasError(s) && !s.resetDisplay && |s.display| <= 1 ==> r.display == "0"
    ensures Instructions.DotCount(r.display) <= Instructions.DotCount(s.display)
  {
    if HasError(s) || s.resetDisplay then s
    else if |s.display| > 1 then
      assert s.display == s.display[..|s.display| - 1] + [s.display[|s.display| - 1]];
      s.(display := s.display[..|s.display| - 1])
    else s.(display := "0")
  }

  /** `handleToggleSign`: only the display changes, to the negated number. */
  function ToggleSignStep(s: CalculatorSnapshot, numerics: FloatOps): (r: CalculatorSnapshot)
    ensures HasError(s) ==> r == s
    ensures !HasError(s) ==> r == s.(display := numerics.negate(s.display))
  {
    if HasError(s) then s else s.(display := numerics.negate(s.display))
  }

  /**
   * `calculate`: calls the client for the pending operator on `(operand,
   * display)`; the display becomes the result, or "0" when the call fails
   * (`res` keeps its initial value), and a failure is recorded as the error.
   * Nothing else changes and `processing` is false again at the end.
   */
  function CalculateStep(s: CalculatorSnapshot, reply: Outcome): (r: (CalculatorSnapshot, Option<Call>))
    requires s.operand.Some?
    ensures r.1 == CallFor(s.operator, s.operand.value, s.display)
    ensures r.0 == s.(display := r.0.display, error := r.0.error, processing := false)
    ensures r.1.Some? && reply.Ok? ==> r.0.display == reply.result && r.0.error == s.error
    ensures r.1.Some? && reply.Fail? ==>
              r.0.display == "0" && r.0.error == Some(RejectionMessage(reply.message))
    ensures r.1.None? ==>
              r.0.display == "0" && r.0.error == Some("Failed to process " + OperatorText(s.operator))
  {
    var call := CallFor(s.operator, s.operand.value, s.display);
    var error :=
      if call.None? then Some("Failed to process " + OperatorText(s.operator))
      else if reply.Fail? then Some(RejectionMessage(reply.message))
      else s.error;
    var res := if call.Some? && reply.Ok? then reply.result else "0";
    (s.(display := res, error := error, processing := false), call)
  }

  /** `handleSqrt`: sends the display to the remote square root; on success the
      result is shown as a fresh number with nothing pending. */
  function SqrtStep(s: CalculatorSnapshot, reply: Outcome): (r: (CalculatorSnapshot, Option<Call>))
    ensures HasError(s) ==> r == (s, None)
    ensures !HasError(s) ==> r.1 == Some(SqrtCall(s.display))
    ensures !HasError(s) && reply.Ok? ==>
              r.0 == s.(display := reply.result, operand := None, operator := None,
                        resetDisplay := true, processing := false)
    ensures !HasError(s) && reply.Fail? && RejectionMessage(reply.message) != "" ==>
              r.0 == s.(display := "0", operand := Some(s.display), operator := Some('s'),
                        error := Some(RejectionMessage(reply.message)), processing := false)
    ensures !HasError(s) && reply.Fail? && RejectionMessage(reply.message) == "" ==>
              r.0 == s.(display := "0", operand := None, operator := None, resetDisplay := true,
                        error := Some(""), processing := false)
  {
    if HasError(s) then (s, None)
    else
      var t := CalculateStep(s.(operand := Some(s.display), operator := Some('s')), reply);
      if !HasError(t.0) then (t.0.(operator := None, operand := None, resetDisplay := true), t.1)
      else t
  }

  /**
   * `handleOperator`: with an operator pending and a number being typed, the
   * pending operation is resolved first, and a failure stops there without
   * recording the new operator. Otherwise the display becomes the operand of
   * the new operator.
   */
  function OperatorStep(s: CalculatorSnapshot, op: char, reply: Outcome): (r: (CalculatorSnapshot, Option<Call>))
    requires s.operator.Some? ==> s.operand.Some?
    ensures HasError(s) ==> r == (s, None)
    ensures !HasError(s) && (s.operator.None? || s.resetDisplay) ==>
              r == (s.(operand := Some(s.display), operator := Some(op), resetDisplay := true), None)
    ensures !HasError(s) && s.operator.Some? && !s.resetDisplay ==>
              r.1 == CallFor(s.operator, s.operand.value, s.display)
    ensures !HasError(s) && s.operator.Some? && !s.resetDisplay && r.1.Some? && reply.Ok? ==>
              r.0 == s.(display := reply.result, operand := Some(reply.result), operator := Some(op),
                        resetDisplay := true, processing := false)
    ensures !HasError(s) && s.operator.Some? && !s.resetDisplay && r.1.Some? && reply.Fail?
              && RejectionMessage(reply.message) != "" ==>
              r.0 == s.(display := "0", error := Some(RejectionMessage(reply.message)), processing := false)
    ensures !HasError(s) && s.operator.Some? && !s.resetDisplay && r.1.Some? && reply.Fail?
              && RejectionMessage(reply.message) == "" ==>
              r.0 == s.(display := "0", operand := Some("0"), operator := Some(op), resetDisplay := true,
                        error := Some(""), processing := false)
  {
    if HasError(s) then (s, None)
    else if s.operator.Some? && !s.resetDisplay then
      var t := CalculateStep(s, reply);
      if HasError(t.0) then t
      else (t.0.(operand := Some(t.0.display), operator := Some(op), resetDisplay := true), t.1)
    else (s.(operand := Some(s.display), operator := Some(op), resetDisplay := true), None)
  }

  /** `handleEqual`: resolves a pending operation; on success the result is a
      fresh number with nothing pending, on failure the pending pair stays. */
  function EqualStep(s: CalculatorSnapshot, reply: Outcome): (r: (CalculatorSnapshot, Option<Call>))
    ensures HasError(s) || s.operator.None? || s.operand.None? ==> r == (s, None)
    ensures !HasError(s) && s.operator.Some? && s.operand.Some? ==>
              r.1 == CallFor(s.operator, s.operand.value, s.display)
    ensures !HasError(s) && s.operator.Some? && s.operand.Some? && r.1.Some? && reply.Ok? ==>
              r.0 == s.(display := reply.result, operand := None, operator := None,
                        resetDisplay := true, processing := false)
    ensures !HasError(s) && s.operator.Some? && s.operand.Some? && r.1.Some? && reply.Fail?
              && RejectionMessage(reply.message) != "" ==>
              r.0 == s.(display := "0", error := Some(RejectionMessage(reply.message)), processing := false)
    ensures !HasError(s) && s.operator.Some? && s.operand.Some? && r.1.Some? && reply.Fail?
              && RejectionMessage(reply.message) == "" ==>
              r.0 == s.(display := "0", operand := None, operator := None, resetDisplay := true,
                        error := Some(""), processing := false)
  {
    if HasError(s) then (s, None)
    else if s.operator.Some? && s.operand.Some? then
      var t := CalculateStep(s, reply);
      if !HasError(t.0) then (t.0.(operator := None, operand := None, resetDisplay := true), t.1)
      else t
    else (s, None)
  }

  /** `handle` after validation: the dispatch on the instruction character,
      with the client call it made, if any. */
  function Step(s: CalculatorSnapshot, inst: char, reply: Outcome, numerics: FloatOps): (r: (CalculatorSnapshot, Option<Call>))
    requires Consistent(s)
    ensures Consistent(r.0)
    ensures r.1.Some? ==> inst in "s+-*/^%="
  {
    if '0' <= inst <= '9' then (DigitStep(s, inst), None)
    else if inst == '.' then (DotStep(s), None)
    else if inst == 'c' then (ClearStep(s), None)
    else if inst == 'd' then (DeleteStep(s), None)
    else if inst == 's' then SqrtStep(s, reply)
    else if inst == 't' then (ToggleSignStep(s, numerics), None)
    else if inst in "+-*/%^" then OperatorStep(s, inst, reply)
    else if inst == '=' then EqualStep(s, reply)
    else (s, None)
  }

  /** The effect of a scripted sequence: the final state, the client calls in
      order, the snapshot each handled instruction left (one notification
      each), and the message of the invalid instruction that stopped it, if any. */
  datatype Trace = Trace(state: CalculatorSnapshot, calls: seq<Call>, shown: seq<CalculatorSnapshot>,
                         failure: Option<string>)

  /** `handleSequence`: each character in turn, stopping at the first one that
      is not an instruction; `replies[i]` is how a call made by `insts[i]` settles. */
  function Run(s: CalculatorSnapshot, insts: string, replies: seq<Outcome>, numerics: FloatOps): (t: Trace)
    requires Consistent(s) && |replies| == |insts|
    ensures Consistent(t.state)
    ensures |t.calls| <= |t.shown| <= |insts|
    ensures t.failure.None? ==> |t.shown| == |insts|
    ensures t.shown == [] ==> t.state == s
    ensures t.shown != [] ==> t.shown[|t.shown| - 1] == t.state
    decreases |insts|
  {
    if |insts| == 0 then Trace(s, [], [], None)
    else
      var n := |insts| - 1;
      var t := Run(s, insts[..n], replies[..n], numerics);
      if t.failure.Some? then t
      else if !IsInstruction([insts[n]]) then t.(failure := Some(InvalidMessage([insts[n]])))
      else
        var next := Step(t.state, insts[n], replies[n], numerics);
        Trace(next.0, t.calls + ToSeq(next.1), t.shown + [next.0], None)
  }

  /** One more character of a sequence: `Run` on a prefix of length `i + 1`
      from `Run` on the prefix of length `i`. */
  lemma RunExtend(s: CalculatorSnapshot, insts: string, replies: seq<Outcome>, numerics: FloatOps, i: nat)
    requires Consistent(s) && |replies| == |insts| && i < |insts|
    ensures var t := Run(s, insts[..i], replies[..i], numerics);
            Run(s, insts[..i + 1], replies[..i + 1], numerics) ==
              if t.failure.Some? then t
              else if !IsInstruction([insts[i]]) then t.(failure := Some(InvalidMessage([insts[i]])))
              else
                var next := Step(t.state, insts[i], replies[i], numerics);
                Trace(next.0, t.calls + ToSeq(next.1), t.shown + [next.0], None)
  {
    assert insts[..i + 1][..i] == insts[..i] && replies[..i + 1][..i] == replies[..i];
  }

  /** A valid character after a clean prefix: one more `Step`, one more snapshot shown. */
  lemma RunHandled(s: CalculatorSnapshot, insts: string, replies: seq<Outcome>, numerics: FloatOps, i: nat,
                   st: CalculatorSnapshot, calls: seq<Call>, shown: seq<CalculatorSnapshot>)
    requires Consistent(s) && |replies| == |insts| && i < |insts|
    requires Run(s, insts[..i], replies[..i], numerics) == Trace(st, calls, shown, None)
    requires IsInstruction([insts[i]])
    ensures Consistent(st)
    ensures var next := Step(st, insts[i], replies[i], numerics);
            Run(s, insts[..i + 1], replies[..i + 1], numerics) ==
              Trace(next.0, calls + ToSeq(next.1), shown + [next.0], None)
  {
    RunExtend(s, insts, replies, numerics, i);
  }

  /** An invalid character after a clean prefix stops the whole sequence there. */
  lemma RunRejected(s: CalculatorSnapshot, insts: string, replies: seq<Outcome>, numerics: FloatOps, i: nat,
                    st: CalculatorSnapshot, calls: seq<Call>, shown: seq<CalculatorSnapshot>)
    requires Consistent(s) && |replies| == |insts| && i < |insts|
    requires Run(s, insts[..i], replies[..i], numerics) == Trace(st, calls, shown, None)
    requires !IsInstruction([insts[i]])
    ensures Run(s, insts, replies, numerics) == Trace(st, calls, shown, Some(InvalidMessage([insts[i]])))
  {
    RunExtend(s, insts, replies, numerics, i);
    RunStopsAtFailure(s, insts, replies, numerics, i + 1);
  }

  /** Once an invalid instruction has stopped a sequence, the rest of it is ignored. */
  lemma {:induction false} RunStopsAtFailure(s: CalculatorSnapshot, insts: string, replies: seq<Outcome>,
                                             numerics: FloatOps, k: nat)
    requires Consistent(s) && |replies| == |insts| && k <= |insts|
    requires Run(s, insts[..k], replies[..k], numerics).failure.Some?
    ensures Run(s, insts, replies, numerics) == Run(s, insts[..k], replies[..k], numerics)
    decreases |insts|
  {
    if k < |insts| {
      var n := |insts| - 1;
      assert insts[..n][..k] == insts[..k] && replies[..n][..k] == replies[..k];
      RunStopsAtFailure(s, insts[..n], replies[..n], numerics, k);
    } else {
      assert insts[..k] == insts && replies[..k] == replies;
    }
  }

  /** The live calculator object: its fields change in place, one instruction at a time. */
  class CalculatorState {
    var display: string
    var operand: Option<string>
    var operator: Option<char>
    var resetDisplay: bool
    var error: Option<string>
    var processing: bool
    /** Whether a listener is registered (`setListener` with a callback or with `null`). */
    var listening: bool
    /** The snapshots the listener has received, oldest first. */
    var delivered: seq<CalculatorSnapshot>
    /** The floating-point helpers behind toggle-sign. */
    const numerics: FloatOps

    /** `snapshot` */
    function Snapshot(): CalculatorSnapshot
      reads this
    {
      CalculatorSnapshot(display, operand, operator, resetDisplay, error, processing)
    }

    ghost predicate Valid()
      reads this
    {
      Consistent(Snapshot())
    }

    /** The listener registration and what it received are left as they were. */
    twostate predicate ListenerKept()
      reads this
    {
      listening == old(listening) && delivered == old(delivered)
    }

    constructor (numerics: FloatOps)
      ensures Valid() && Snapshot() == Initial
      ensures !listening && delivered == [] && this.numerics == numerics
    {
      display, operand, operator := "0", None, None;
      resetDisplay, error, processing := false, None, false;
      listening, delivered := false, [];
      this.numerics := numerics;
    }

    /** `setListener` */
    method SetListener(on: bool)
      modifies this`listening
      ensures listening == on
    {
      listening := on;
    }

    /** `notify`: the listener, if any, receives the current snapshot. */
    method Notify()
      modifies this`delivered
      ensures delivered == old(delivered) + (if listening then [Snapshot()] else [])
    {
      if listening {
        delivered := delivered + [Snapshot()];
      }
    }

    /** `isProcessing` */
    function IsProcessing(): bool
      reads this
    {
      processing
    }

    /** `getDisplay` */
    function GetDisplay(): string
      reads this
    {
      DisplayText(Snapshot())
    }

    /** `getExpression` */
    function GetExpression(): string
      reads this
    {
      ExpressionText(Snapshot())
    }

    /** `clear`: every field, `processing` included, back to its initial value. */
    method Clear()
      modifies this
      ensures Snapshot() == Initial && ListenerKept()
    {
      display, operand, operator := "0", None, None;
      resetDisplay, error, processing := false, None, false;
    }

    /** `handleSequence`: the characters in order, each awaited before the next;
        the first invalid one throws, after the earlier ones took effect. */
    method HandleSequence(sequence: string, replies: seq<Outcome>) returns (r: Result<seq<Call>, string>)
      requires Valid() && |replies| == |sequence|
      modifies this
      ensures Valid() && listening == old(listening)
      ensures Snapshot() == Run(old(Snapshot()), sequence, replies, numerics).state
      ensures r == (var t := Run(old(Snapshot()), sequence, replies, numerics);
                    if t.failure.Some? then Failure(t.failure.value) else Success(t.calls))
      ensures delivered == old(delivered) + (if listening then Run(old(Snapshot()), sequence, replies, numerics).shown else [])
    {
      var calls: seq<Call> := [];
      ghost var shown: seq<CalculatorSnapshot> := [];
      ghost var s0 := Snapshot();
      var i := 0;
      while i < |sequence|
        invariant 0 <= i <= |sequence|
        invariant Valid() && listening == old(listening)
        invariant s0 == old(Snapshot())
        invariant Run(s0, sequence[..i], replies[..i], numerics) == Trace(Snapshot(), calls, shown, None)
        invariant delivered == old(delivered) + (if listening then shown else [])
      {
        ghost var pre := Snapshot();
        var h := Handle([sequence[i]], replies[i]);
        if h.Failure? {
          RunRejected(s0, sequence, replies, numerics, i, pre, calls, shown);
          return Failure(h.error);
        }
        RunHandled(s0, sequence, replies, numerics, i, pre, calls, shown);
        calls := calls + ToSeq(h.value);
        shown := shown + [Snapshot()];
        i := i + 1;
      }
      assert sequence[..i] == sequence && replies[..i] == replies;
      r := Success(calls);
    }

    /**
     * `handle`: rejects anything outside the alphabet before touching any
     * field or the listener; otherwise dispatches, then notifies once.
     * `reply` is how the client call settles, if the instruction makes one.
     */
    method Handle(inst: string, reply: Outcome) returns (r: Result<Option<Call>, string>)
      requires Valid()
      modifies this
      ensures Valid() && listening == old(listening)
      ensures !IsInstruction(inst) ==> r == Failure(InvalidMessage(inst)) && unchanged(this)
      ensures IsInstruction(inst) ==>
                Snapshot() == Step(old(Snapshot()), inst[0], reply, numerics).0
                && r == Success(Step(old(Snapshot()), inst[0], reply, numerics).1)
                && delivered == old(delivered) + (if listening then [Snapshot()] else [])
    {
      if !IsInstruction(inst) {
        return Failure(InvalidMessage(inst));
      }
      var c := inst[0];
      ghost var before := Snapshot();
      var call: Option<Call> := None;
      if '0' <= c <= '9' {
        HandleDigit(c);
        assert Step(before, c, reply, numerics) == (DigitStep(before, c), None);
      } else if c == '.' {
        HandleDot();
        assert Step(before, c, reply, numerics) == (DotStep(before), None);
      } else if c == 'c' {
        HandleClear();
        assert Step(before, c, reply, numerics) == (ClearStep(before), None);
      } else if c == 'd' {
        HandleDelete();
        assert Step(before, c, reply, numerics) == (DeleteStep(before), None);
      } else if c == 's' {
        call := HandleSqrt(reply);
        assert Step(before, c, reply, numerics) == SqrtStep(before, reply);
      } else if c == 't' {
        HandleToggleSign();
        assert Step(before, c, reply, numerics) == (ToggleSignStep(before, numerics), None);
      } else if c in "+-*/%^" {
        call := HandleOperator(c, reply);
        assert Step(before, c, reply, numerics) == OperatorStep(before, c, reply);
      } else {
        assert c == '=';
        call := HandleEqual(reply);
        assert Step(before, c, reply, numerics) == EqualStep(before, reply);
      }
      assert (Snapshot(), call) == Step(before, c, reply, numerics);
      Notify();
      r := Success(call);
    }

    method HandleDigit(digit: char)
      requires '0' <= digit <= '9'
      modifies this
      ensures Snapshot() == DigitStep(old(Snapshot()), digit) && ListenerKept()
    {
      if HasError(Snapshot()) {
        Clear();
      }
      if resetDisplay {
        display := [digit];
        resetDisplay := false;
      } else {
        if display == "0" {
          display := [digit];
        } else {
          display := display + [digit];
        }
      }
    }

    method HandleDot()
      modifies this
      ensures Snapshot() == DotStep(old(Snapshot())) && ListenerKept()
    {
      if HasError(Snapshot()) {
        Clear();
      }
      if resetDisplay {
        display := "0.";
        resetDisplay := false;
      } else {
        if '.' !in display {
          display := display + ".";
        }
      }
    }

    method HandleClear()
      modifies this
      ensures Snapshot() == ClearStep(old(Snapshot())) && ListenerKept()
    {
      display := "0";
      operand := None;
      operator := None;
      resetDisplay := false;
      error := None;
    }

    method HandleDelete()
      modifies this
      ensures Snapshot() == DeleteStep(old(Snapshot())) && ListenerKept()
    {
      if HasError(Snapshot()) {
        return;
      }
      if resetDisplay {
        return;
      }
      if |display| > 1 {
        display := display[..|display| - 1];
      } else {
        display := "0";
      }
    }

    method HandleSqrt(reply: Outcome) returns (call: Option<Call>)
      requires !processing
      modifies this
      ensures (Snapshot(), call) == SqrtStep(old(Snapshot()), reply) && ListenerKept()
    {
      if HasError(Snapshot()) {
        return None;
      }
      operand := Some(display);
      operator := Some('s');
      ghost var inFlight;
      call, inFlight := Calculate(reply);
      if !HasError(Snapshot()) {
        operator := None;
        operand := None;
        resetDisplay := true;
      }
    }

    method HandleToggleSign()
      modifies this
      ensures Snapshot() == ToggleSignStep(old(Snapshot()), numerics) && ListenerKept()
    {
      if HasError(Snapshot()) {
        return;
      }
      display := numerics.negate(display);
    }

    method HandleOperator(op: char, reply: Outcome) returns (call: Option<Call>)
      requires Valid()
      modifies this
      ensures (Snapshot(), call) == OperatorStep(old(Snapshot()), op, reply) && ListenerKept()
    {
      call := None;
      if HasError(Snapshot()) {
        return;
      }
      if operator.Some? && !resetDisplay {
        ghost var inFlight;
        call, inFlight := Calculate(reply);
        if HasError(Snapshot()) {
          return;
        }
      }
      operand := Some(display);
      operator := Some(op);
      resetDisplay := true;
    }

    method HandleEqual(reply: Outcome) returns (call: Option<Call>)
      requires !processing
      modifies this
      ensures (Snapshot(), call) == EqualStep(old(Snapshot()), reply) && ListenerKept()
    {
      call := None;
      if HasError(Snapshot()) {
        return;
      }
      if operator.Some? && operand.Some? {
        ghost var inFlight;
        call, inFlight := Calculate(reply);
        if !HasError(Snapshot()) {
          operator := None;
          operand := None;
          resetDisplay := true;
        }
      }
    }

    /**
     * `calculate`: `processing` is raised while the call is in flight
     * (`inFlight` is the state the awaiting code and an early listener see)
     * and lowered when it settles; the display is set after the `catch`.
     */
    method Calculate(reply: Outcome) returns (call: Option<Call>, ghost inFlight: CalculatorSnapshot)
      requires operand.Some? && !processing
      modifies this
      ensures (Snapshot(), call) == CalculateStep(old(Snapshot()), reply) && ListenerKept()
      ensures inFlight == old(Snapshot()).(processing := true)
    {
      var a := operand.value;
      var b := display;
      var res := "0";
      processing := true;
      inFlight := Snapshot();
      call := CallFor(operator, a, b);
      match call {
        case None =>
          error := Some("Failed to process " + OperatorText(operator));
        case Some(_) =>
          match reply {
            case Ok(v) => res := v;
            case Fail(m) => error := Some(RejectionMessage(m));
          }
      }
      processing := false;
      display := res;
    }
  }
}
