/**
 * The older calculator state machine of frontend/src/calculator/CalculatorState.ts.
 *
 * It differs from the live one in four ways: any instruction other than `c`
 * first clears an error, the square root is computed locally (and a negative
 * display is rejected with "Error" without any remote call), the expression
 * line does not look at the error, and there is no `processing` flag.
 * As in `LiveState`, each transition is first a function on snapshots and the
 * class methods are proved to follow them.
 */
module LegacyState {
  import opened Wrappers
  import opened ApiClient
  import opened RemoteCall
  import opened Numerics
  import Instructions

  /** `DIGITS` and `OPERATORS` of this file; `INSTRUCTIONS` is the two together. */
  const DigitChars: string := "0123456789."
  const OperatorChars: string := "+-*/^%scdt="
  const InstructionChars: string := DigitChars + OperatorChars

  /** `isInstruction` */
  predicate IsInstruction(inst: string)
    ensures IsInstruction(inst) <==> |inst| == 1 && ('0' <= inst[0] <= '9' || inst[0] in ".+-*/^%scdt=")
  {
    |inst| == 1 && inst[0] in InstructionChars
  }

  /** The message `handle` throws for anything outside the alphabet. */
  function InvalidMessage(inst: string): string {
    "Invalid instruction: " + inst
  }

  /** `CalculatorSnapshot` of this version: five fields, no `processing`. */
  datatype CalculatorSnapshot = CalculatorSnapshot(
    display: string,
    operand: Option<string>,
    operator: Option<char>,
    resetDisplay: bool,
    error: Option<string>)

  /** The field initialisers, which `clear()` restores. */
  const Initial: CalculatorSnapshot := CalculatorSnapshot("0", None, None, false, None)

  /** `if (this.error)`: JavaScript truthiness, so an empty message counts as no error. */
  predicate HasError(s: CalculatorSnapshot) {
    s.error.Some? && s.error.value != ""
  }

  /** An operand is pending exactly when an operator is, and that operator is
      one of the six binary ones: only `handleOperator` records an operator,
      and the square root never goes through it. */
  ghost predicate Consistent(s: CalculatorSnapshot) {
    && (s.operand.Some? <==> s.operator.Some?)
    && (s.operator.Some? ==> s.operator.value in "+-*/^%")
  }

  /** `getDisplay`: the error when there is one, else the display. */
  function DisplayText(s: CalculatorSnapshot): (r: string)
    ensures HasError(s) ==> r == s.error.value && r != ""
    ensures !HasError(s) ==> r == s.display
  {
    if HasError(s) then s.error.value else s.display
  }

  /** `getExpression`: "operand operator" whenever both are pending, error or not. */
  function ExpressionText(s: CalculatorSnapshot): (r: string)
    ensures r != "" <==> s.operand.Some? && s.operator.Some?
    ensures r != "" ==> r == s.operand.value + " " + [s.operator.value]
  {
    if s.operand.Some? && s.operator.Some? then s.operand.value + " " + [s.operator.value] else ""
  }

  /** `handleDigit`: its own error branch resets every field but the display,
      which becomes the digit; otherwise as in the live version. */
  function DigitStep(s: CalculatorSnapshot, d: char): (r: CalculatorSnapshot)
    requires '0' <= d <= '9'
    ensures !HasError(r) && !r.resetDisplay
    ensures HasError(s) ==> r == Initial.(display := [d])
    ensures !HasError(s) && (s.resetDisplay || s.display == "0") ==> r == s.(display := [d], resetDisplay := false)
    ensures !HasError(s) && !s.resetDisplay && s.display != "0" ==> r == s.(display := s.display + [d])
    ensures Instructions.DotCount(r.display) <= Instructions.DotCount(s.display)
  {
    if HasError(s) then CalculatorSnapshot([d], None, None, false, None)
    else if s.resetDisplay then s.(display := [d], resetDisplay := false)
    else if s.display == "0" then s.(display := [d])
    else s.(display := s.display + [d])
  }

  /** `handleDot`: "0." after an error or a fresh result, otherwise a point is
      appended only when there is none. */
  function DotStep(s: CalculatorSnapshot): (r: CalculatorSnapshot)
    ensures !HasError(r) && !r.resetDisplay && '.' in r.display
    ensures HasError(s) ==> r == Initial.(display := "0.")
    ensures !HasError(s) && s.resetDisplay ==> r == s.(display := "0.", resetDisplay := false)
    ensures !HasError(s) && !s.resetDisplay && '.' in s.display ==> r == s
    ensures !HasError(s) && !s.resetDisplay && '.' !in s.display ==> r == s.(display := s.display + ".")
    ensures Instructions.DotCount(r.display) == 1 || (r == s && Instructions.DotCount(s.display) > 1)
  {
    if HasError(s) then CalculatorSnapshot("0.", None, None, false, None)
    else if s.resetDisplay then s.(display := "0.", resetDisplay := false)
    else if '.' !in s.display then s.(display := s.display + ".")
    else s
  }

  /** `handleClear` (and `clear`): every field back to its default. */
  function ClearStep(s: CalculatorSnapshot): (r: CalculatorSnapshot)
    ensures r == Initial
  {
    s.(display := "0", operand := None, operator := None, resetDisplay := false, error := None)
  }

  /** `handleDelete`: nothing under an error or a fresh result; otherwise the
      last character goes, and a single character becomes "0". */
  function DeleteStep(s: CalculatorSnapshot): (r: CalculatorSnapshot)
    ensures r == s.(display := r.display)
    ensures HasError(s) || s.resetDisplay ==> r == s
    ensures !HasError(s) && !s.resetDisplay && |s.display| > 1 ==>
              r.display + [s.display[|s.display| - 1]] == s.display
    ensures !HasError(s) && !s.resetDisplay && |s.display| <= 1 ==> r.display == "0"
    ensures Instructions.DotCount(r.display) <= Instructions.DotCount(s.display)
  {
    if HasError(s) || s.resetDisplay then s
    else if |s.display| > 1 then
      assert s.display == s.display[..|s.display| - 1] + [s.display[|s.display| - 1]];
      s.(display := s.display[..|s.display| - 1])
    else s.(display := "0")
  }

  /** `handleSqrt`: computed locally. A negative display sets the error "Error";
      otherwise the display becomes its square root. Either way the next digit
      starts a fresh number; the pending operation is not touched. */
  function SqrtStep(s: CalculatorSnapshot, numerics: FloatOps): (r: CalculatorSnapshot)
    ensures HasError(s) ==> r == s
    ensures !HasError(s) ==> r.resetDisplay && r.operand == s.operand && r.operator == s.operator
    ensures !HasError(s) && numerics.isNegative(s.display) ==>
              r == s.(error := Some("Error"), resetDisplay := true) && DisplayText(r) == "Error"
    ensures !HasError(s) && !numerics.isNegative(s.display) ==>
              r == s.(display := numerics.sqrt(s.display), resetDisplay := true)
  {
    if HasError(s) then s
    else if numerics.isNegative(s.display) then s.(error := Some("Error"), resetDisplay := true)
    else s.(display := numerics.sqrt(s.display), resetDisplay := true)
  }

  /** `handleToggleSign`: only the display changes, to the negated number. */
  function ToggleSignStep(s: CalculatorSnapshot, numerics: FloatOps): (r: CalculatorSnapshot)
    ensures HasError(s) ==> r == s
    ensures !HasError(s) ==> r == s.(display := numerics.negate(s.display))
  {
    if HasError(s) then s else s.(display := numerics.negate(s.display))
  }

  /** `calculate`: as in the live version, without the `processing` flag: the
      display becomes the result, or "0" when the call fails. */
  function CalculateStep(s: CalculatorSnapshot, reply: Outcome): (r: (CalculatorSnapshot, Option<Call>))
    requires s.operand.Some?
    ensures r.1 == CallFor(s.operator, s.operand.value, s.display)
    ensures r.0 == s.(display := r.0.display, error := r.0.error)
    ensures r.1.Some? && reply.Ok? ==> r.0.display == reply.result && r.0.error == s.error
    ensures r.1.Some? && reply.Fail? ==>
              r.0.display == "0" && r.0.error == Some(RejectionMessage(reply.message))
    ensures r.1.None? ==>
              r.0.display == "0" && r.0.error == Some("Failed to process " + OperatorText(s.operator))
  {
    var call := CallFor(s.operator, s.operand.value, s.display);
    var error :=
      if call.None? then Some("Failed to process " + OperatorText(s.operator))
      else if reply.Fail? then Some(RejectionMessage(reply.message))
      else s.error;
    var res := if call.Some? && reply.Ok? then reply.result else "0";
    (s.(display := res, error := error), call)
  }

  /** `handleOperator`: resolves a pending operation first when a second number
      is being typed, and stops on failure; then the display becomes the
      operand of the new operator. */
  function OperatorStep(s: CalculatorSnapshot, op: char, reply: Outcome): (r: (CalculatorSnapshot, Option<Call>))
    requires s.operator.Some? ==> s.operand.Some?
    ensures HasError(s) ==> r == (s, None)
    ensures !HasError(s) && (s.operator.None? || s.resetDisplay) ==>
              r == (s.(operand := Some(s.display), operator := Some(op), resetDisplay := true), None)
    ensures !HasError(s) && s.operator.Some? && !s.resetDisplay ==>
              r.1 == CallFor(s.operator, s.operand.value, s.display)
    ensures !HasError(s) && s.operator.Some? && !s.resetDisplay && r.1.Some? && reply.Ok? ==>
              r.0 == s.(display := reply.result, operand := Some(reply.result), operator := Some(op),
                        resetDisplay := true)
    ensures !HasError(s) && s.operator.Some? && !s.resetDisplay && r.1.Some? && reply.Fail?
              && RejectionMessage(reply.message) != "" ==>
              r.0 == s.(display := "0", error := Some(RejectionMessage(reply.message)))
    ensures !HasError(s) && s.operator.Some? && !s.resetDisplay && r.1.Some? && reply.Fail?
              && RejectionMessage(reply.message) == "" ==>
              r.0 == s.(display := "0", operand := Some("0"), operator := Some(op), resetDisplay := true,
                        error := Some(""))
  {
    if HasError(s) then (s, None)
    else if s.operator.Some? && !s.resetDisplay then
      var t := CalculateStep(s, reply);
      if HasError(t.0) then t
      else (t.0.(operand := Some(t.0.display), operator := Some(op), resetDisplay := true), t.1)
    else (s.(operand := Some(s.display), operator := Some(op), resetDisplay := true), None)
  }

  /** `handleEqual`: resolves a pending operation; the pending pair is cleared
      and the flag set only on success. */
  function EqualStep(s: CalculatorSnapshot, reply: Outcome): (r: (CalculatorSnapshot, Option<Call>))
    ensures HasError(s) || s.operator.None? || s.operand.None? ==> r == (s, None)
    ensures !HasError(s) && s.operator.Some? && s.operand.Some? ==>
              r.1 == CallFor(s.operator, s.operand.value, s.display)
    ensures !HasError(s) && s.operator.Some? && s.operand.Some? && r.1.Some? && reply.Ok? ==>
              r.0 == s.(display := reply.result, operand := None, operator := None, resetDisplay := true)
    ensures !HasError(s) && s.operator.Some? && s.operand.Some? && r.1.Some? && reply.Fail?
              && RejectionMessage(reply.message) != "" ==>
              r.0 == s.(display := "0", error := Some(RejectionMessage(reply.message)))
    ensures !HasError(s) && s.operator.Some? && s.operand.Some? && r.1.Some? && reply.Fail?
              && RejectionMessage(reply.message) == "" ==>
              r.0 == s.(display := "0", operand := None, operator := None, resetDisplay := true,
                        error := Some(""))
  {
    if HasError(s) then (s, None)
    else if s.operator.Some? && s.operand.Some? then
      var t := CalculateStep(s, reply);
      if !HasError(t.0) then (t.0.(operator := None, operand := None, resetDisplay := true), t.1)
      else t
    else (s, None)
  }

  /** The dispatch of `handle` on a state that has already been cleared of
      any error (or on `c`). */
  function DispatchStep(s: CalculatorSnapshot, inst: char, reply: Outcome, numerics: FloatOps): (r: (CalculatorSnapshot, Option<Call>))
    requires Consistent(s)
    ensures Consistent(r.0)
    ensures r.1.Some? ==> inst in "+-*/^%="
  {
    if '0' <= inst <= '9' then (DigitStep(s, inst), None)
    else if inst == '.' then (DotStep(s), None)
    else if inst == 'c' then (ClearStep(s), None)
    else if inst == 'd' then (DeleteStep(s), None)
    else if inst == 's' then (SqrtStep(s, numerics), None)
    else if inst == 't' then (ToggleSignStep(s, numerics), None)
    else if inst in "+-*/%^" then OperatorStep(s, inst, reply)
    else if inst == '=' then EqualStep(s, reply)
    else (s, None)
  }

  /** `handle` after validation: an error is cleared first unless the
      instruction is `c`, then the instruction is dispatched. */
  function Step(s: CalculatorSnapshot, inst: char, reply: Outcome, numerics: FloatOps): (r: (CalculatorSnapshot, Option<Call>))
    requires Consistent(s)
    ensures Consistent(r.0)
  {
    var t := if HasError(s) && inst != 'c' then ClearStep(s) else s;
    DispatchStep(t, inst, reply, numerics)
  }

  /** The effect of a scripted sequence: the final state, the client calls in
      order, the snapshot each handled instruction left (one notification
      each), and the message of the invalid instruction that stopped it, if any. */
  datatype Trace = Trace(state: CalculatorSnapshot, calls: seq<Call>, shown: seq<CalculatorSnapshot>,
                         failure: Option<string>)

  /** `handleSequence`: each character in turn, stopping at the first one that
      is not an instruction; `replies[i]` is how a call made by `insts[i]` settles. */
  function Run(s: CalculatorSnapshot, insts: string, replies: seq<Outcome>, numerics: FloatOps): (t: Trace)
    requires Consistent(s) && |replies| == |insts|
    ensures Consistent(t.state)
    ensures |t.calls| <= |t.shown| <= |insts|
    ensures t.failure.None? ==> |t.shown| == |insts|
    ensures t.shown == [] ==> t.state == s
    ensures t.shown != [] ==> t.shown[|t.shown| - 1] == t.state
    decreases |insts|
  {
    if |insts| == 0 then Trace(s, [], [], None)
    else
      var n := |insts| - 1;
      var t := Run(s, insts[..n], replies[..n], numerics);
      if t.failure.Some? then t
      else if !IsInstruction([insts[n]]) then t.(failure := Some(InvalidMessage([insts[n]])))
      else
        var next := Step(t.state, insts[n], replies[n], numerics);
        Trace(next.0, t.calls + ToSeq(next.1), t.shown + [next.0], None)
  }

  /** One more character of a sequence: `Run` on a prefix of length `i + 1`
      from `Run` on the prefix of length `i`. */
  lemma RunExtend(s: CalculatorSnapshot, insts: string, replies: seq<Outcome>, numerics: FloatOps, i: nat)
    requires Consistent(s) && |replies| == |insts| && i < |insts|
    ensures var t := Run(s, insts[..i], replies[..i], numerics);
            Run(s, insts[..i + 1], replies[..i + 1], numerics) ==
              if t.failure.Some? then t
              else if !IsInstruction([insts[i]]) then t.(failure := Some(InvalidMessage([insts[i]])))
              else
                var next := Step(t.state, insts[i], replies[i], numerics);
                Trace(next.0, t.calls + ToSeq(next.1), t.shown + [next.0], None)
  {
    assert insts[..i + 1][..i] == insts[..i] && replies[..i + 1][..i] == replies[..i];
  }

  /** A valid character after a clean prefix: one more `Step`, one more snapshot shown. */
  lemma RunHandled(s: CalculatorSnapshot, insts: string, replies: seq<Outcome>, numerics: FloatOps, i: nat,
                   st: CalculatorSnapshot, calls: seq<Call>, shown: seq<CalculatorSnapshot>)
    requires Consistent(s) && |replies| == |insts| && i < |insts|
    requires Run(s, insts[..i], replies[..i], numerics) == Trace(st, calls, shown, None)
    requires IsInstruction([insts[i]])
    ensures Consistent(st)
    ensures var next := Step(st, insts[i], replies[i], numerics);
            Run(s, insts[..i + 1], replies[..i + 1], numerics) ==
              Trace(next.0, calls + ToSeq(next.1), shown + [next.0], None)
  {
    RunExtend(s, insts, replies, numerics, i);
  }

  /** An invalid character after a clean prefix stops the whole sequence there. */
  lemma RunRejected(s: CalculatorSnapshot, insts: string, replies: seq<Outcome>, numerics: FloatOps, i: nat,
                    st: CalculatorSnapshot, calls: seq<Call>, shown: seq<CalculatorSnapshot>)
    requires Consistent(s) && |replies| == |insts| && i < |insts|
    requires Run(s, insts[..i], replies[..i], numerics) == Trace(st, calls, shown, None)
    requires !IsInstruction([insts[i]])
    ensures Run(s, insts, replies, numerics) == Trace(st, calls, shown, Some(InvalidMessage([insts[i]])))
  {
    RunExtend(s, insts, replies, numerics, i);
    RunStopsAtFailure(s, insts, replies, numerics, i + 1);
  }

  /** Once an invalid instruction has stopped a sequence, the rest of it is ignored. */
  lemma {:induction false} RunStopsAtFailure(s: CalculatorSnapshot, insts: string, replies: seq<Outcome>,
                                             numerics: FloatOps, k: nat)
    requires Consistent(s) && |replies| == |insts| && k <= |insts|
    requires Run(s, insts[..k], replies[..k], numerics).failure.Some?
    ensures Run(s, insts, replies, numerics) == Run(s, insts[..k], replies[..k], numerics)
    decreases |insts|
  {
    if k < |insts| {
      var n := |insts| - 1;
      assert insts[..n][..k] == insts[..k] && replies[..n][..k] == replies[..k];
      RunStopsAtFailure(s, insts[..n], replies[..n], numerics, k);
    } else {
      assert insts[..k] == insts && replies[..k] == replies;
    }
  }

  /** The older calculator object: its fields change in place, one instruction at a time. */
  class CalculatorState {
    var display: string
    var operand: Option<string>
    var operator: Option<char>
    var resetDisplay: bool
    var error: Option<string>
    /** Whether a listener is registered. */
    var listening: bool
    /** The snapshots the listener has received, oldest first. */
    var delivered: seq<CalculatorSnapshot>
    /** The floating-point helpers behind toggle-sign and the local square root. */
    const numerics: FloatOps

    /** `snapshot` */
    function Snapshot(): CalculatorSnapshot
      reads this
    {
      CalculatorSnapshot(display, operand, operator, resetDisplay, error)
    }

    ghost predicate Valid()
      reads this
    {
      Consistent(Snapshot())
    }

    /** The listener registration and what it received are left as they were. */
    twostate predicate ListenerKept()
      reads this
    {
      listening == old(listening) && delivered == old(delivered)
    }

    constructor (numerics: FloatOps)
      ensures Valid() && Snapshot() == Initial
      ensures !listening && delivered == [] && this.numerics == numerics
    {
      display, operand, operator := "0", None, None;
      resetDisplay, error := false, None;
      listening, delivered := false, [];
      this.numerics := numerics;
    }

    /** `setListener` */
    method SetListener(on: bool)
      modifies this`listening
      ensures listening == on
    {
      listening := on;
    }

    /** `notify`: the listener, if any, receives the current snapshot. */
    method Notify()
      modifies this`delivered
      ensures delivered == old(delivered) + (if listening then [Snapshot()] else [])
    {
      if listening {
        delivered := delivered + [Snapshot()];
      }
    }

    /** `getDisplay` */
    function GetDisplay(): string
      reads this
    {
      DisplayText(Snapshot())
    }

    /** `getExpression` */
    function GetExpression(): string
      reads this
    {
      ExpressionText(Snapshot())
    }

    /** `clear` */
    method Clear()
      modifies this
      ensures Snapshot() == Initial && ListenerKept()
    {
      display, operand, operator := "0", None, None;
      resetDisplay, error := false, None;
    }

    /** `handleSequence`: the characters in order; the first invalid one
        throws, after the earlier ones took effect. */
    method HandleSequence(sequence: string, replies: seq<Outcome>) returns (r: Result<seq<Call>, string>)
      requires Valid() && |replies| == |sequence|
      modifies this
      ensures Valid() && listening == old(listening)
      ensures Snapshot() == Run(old(Snapshot()), sequence, replies, numerics).state
      ensures r == (var t := Run(old(Snapshot()), sequence, replies, numerics);
                    if t.failure.Some? then Failure(t.failure.value) else Success(t.calls))
      ensures delivered == old(delivered) + (if listening then Run(old(Snapshot()), sequence, replies, numerics).shown else [])
    {
      var calls: seq<Call> := [];
      ghost var shown: seq<CalculatorSnapshot> := [];
      ghost var s0 := Snapshot();
      var i := 0;
      while i < |sequence|
        invariant 0 <= i <= |sequence|
        invariant Valid() && listening == old(listening)
        invariant s0 == old(Snapshot())
        invariant Run(s0, sequence[..i], replies[..i], numerics) == Trace(Snapshot(), calls, shown, None)
        invariant delivered == old(delivered) + (if listening then shown else [])
      {
        ghost var pre := Snapshot();
        var h := Handle([sequence[i]], replies[i]);
        if h.Failure? {
          RunRejected(s0, sequence, replies, numerics, i, pre, calls, shown);
          return Failure(h.error);
        }
        RunHandled(s0, sequence, replies, numerics, i, pre, calls, shown);
        calls := calls + ToSeq(h.value);
        shown := shown + [Snapshot()];
        i := i + 1;
      }
      assert sequence[..i] == sequence && replies[..i] == replies;
      r := Success(calls);
    }

    /**
     * `handle`: rejects anything outside the alphabet before touching any
     * field; otherwise clears an error unless the instruction is `c`,
     * dispatches, then notifies once.
     */
    method Handle(inst: string, reply: Outcome) returns (r: Result<Option<Call>, string>)
      requires Valid()
      modifies this
      ensures Valid() && listening == old(listening)
      ensures !IsInstruction(inst) ==> r == Failure(InvalidMessage(inst)) && unchanged(this)
      ensures IsInstruction(inst) ==>
                Snapshot() == Step(old(Snapshot()), inst[0], reply, numerics).0
                && r == Success(Step(old(Snapshot()), inst[0], reply, numerics).1)
                && delivered == old(delivered) + (if listening then [Snapshot()] else [])
    {
      if !IsInstruction(inst) {
        return Failure(InvalidMessage(inst));
      }
      var c := inst[0];
      ghost var start := Snapshot();
      if HasError(Snapshot()) && c != 'c' {
        Clear();
      }
      ghost var before := Snapshot();
      assert before == (if HasError(start) && c != 'c' then ClearStep(start) else start);
      var call := Dispatch(c, reply);
      assert Step(start, c, reply, numerics) == DispatchStep(before, c, reply, numerics);
      Notify();
      r := Success(call);
    }

    /** The `if`/`else if` chain of `handle` on an instruction character. */
    method Dispatch(c: char, reply: Outcome) returns (call: Option<Call>)
      requires Valid()
      modifies this
      ensures Valid()
      ensures (Snapshot(), call) == DispatchStep(old(Snapshot()), c, reply, numerics) && ListenerKept()
    {
      ghost var before := Snapshot();
      call := None;
      if '0' <= c <= '9' {
        HandleDigit(c);
        assert DispatchStep(before, c, reply, numerics) == (DigitStep(before, c), None);
      } else if c == '.' {
        HandleDot();
        assert DispatchStep(before, c, reply, numerics) == (DotStep(before), None);
      } else if c == 'c' {
        HandleClear();
        assert DispatchStep(before, c, reply, numerics) == (ClearStep(before), None);
      } else if c == 'd' {
        HandleDelete();
        assert DispatchStep(before, c, reply, numerics) == (DeleteStep(before), None);
      } else if c == 's' {
        HandleSqrt();
        assert DispatchStep(before, c, reply, numerics) == (SqrtStep(before, numerics), None);
      } else if c == 't' {
        HandleToggleSign();
        assert DispatchStep(before, c, reply, numerics) == (ToggleSignStep(before, numerics), None);
      } else if c in "+-*/%^" {
        call := HandleOperator(c, reply);
        assert DispatchStep(before, c, reply, numerics) == OperatorStep(before, c, reply);
      } else if c == '=' {
        call := HandleEqual(reply);
        assert DispatchStep(before, c, reply, numerics) == EqualStep(before, reply);
      }
    }

    method HandleDigit(digit: char)
      requires '0' <= digit <= '9'
      modifies this
      ensures Snapshot() == DigitStep(old(Snapshot()), digit) && ListenerKept()
    {
      if HasError(Snapshot()) {
        error := None;
        display := [digit];
        resetDisplay := false;
        operand := None;
        operator := None;
        return;
      }
      if resetDisplay {
        display := [digit];
        resetDisplay := false;
      } else {
        if display == "0" {
          display := [digit];
        } else {
          display := display + [digit];
        }
      }
    }

    method HandleDot()
      modifies this
      ensures Snapshot() == DotStep(old(Snapshot())) && ListenerKept()
    {
      if HasError(Snapshot()) {
        error := None;
        display := "0.";
        resetDisplay := false;
        operand := None;
        operator := None;
        return;
      }
      if resetDisplay {
        display := "0.";
        resetDisplay := false;
      } else {
        if '.' !in display {
          display := display + ".";
        }
      }
    }

    method HandleClear()
      modifies this
      ensures Snapshot() == ClearStep(old(Snapshot())) && ListenerKept()
    {
      display := "0";
      operand := None;
      operator := None;
      resetDisplay := false;
      error := None;
    }

    method HandleDelete()
      modifies this
      ensures Snapshot() == DeleteStep(old(Snapshot())) && ListenerKept()
    {
      if HasError(Snapshot()) {
        return;
      }
      if resetDisplay {
        return;
      }
      if |display| > 1 {
        display := display[..|display| - 1];
      } else {
        display := "0";
      }
    }

    method HandleSqrt()
      modifies this
      ensures Snapshot() == SqrtStep(old(Snapshot()), numerics) && ListenerKept()
    {
      if HasError(Snapshot()) {
        return;
      }
      if numerics.isNegative(display) {
        error := Some("Error");
        resetDisplay := true;
      } else {
        display := numerics.sqrt(display);
        resetDisplay := true;
      }
    }

    method HandleToggleSign()
      modifies this
      ensures Snapshot() == ToggleSignStep(old(Snapshot()), numerics) && ListenerKept()
    {
      if HasError(Snapshot()) {
        return;
      }
      display := numerics.negate(display);
    }

    method HandleOperator(op: char, reply: Outcome) returns (call: Option<Call>)
      requires Valid()
      modifies this
      ensures (Snapshot(), call) == OperatorStep(old(Snapshot()), op, reply) && ListenerKept()
    {
      call := None;
      if HasError(Snapshot()) {
        return;
      }
      if operator.Some? && !resetDisplay {
        call := Calculate(reply);
        if HasError(Snapshot()) {
          return;
        }
      }
      operand := Some(display);
      operator := Some(op);
      resetDisplay := true;
    }

    method HandleEqual(reply: Outcome) returns (call: Option<Call>)
      modifies this
      ensures (Snapshot(), call) == EqualStep(old(Snapshot()), reply) && ListenerKept()
    {
      call := None;
      if HasError(Snapshot()) {
        return;
      }
      if operator.Some? && operand.Some? {
        call := Calculate(reply);
        if !HasError(Snapshot()) {
          operator := None;
          operand := None;
          resetDisplay := true;
        }
      }
    }

    /** `calculate`: the display is set after the `catch`, to "0" when the call failed. */
    method Calculate(reply: Outcome) returns (call: Option<Call>)
      requires operand.Some?
      modifies this
      ensures (Snapshot(), call) == CalculateStep(old(Snapshot()), reply) && ListenerKept()
    {
      var a := operand.value;
      var b := display;
      var res := "0";
      call := CallFor(operator, a, b);
      match call {
        case None =>
          error := Some("Failed to process " + OperatorText(operator));
        case Some(_) =>
          match reply {
            case Ok(v) => res := v;
            case Fail(m) => error := Some(RejectionMessage(m));
          }
      }
      display := res;
    }
  }
}
