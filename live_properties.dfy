/**
 * What frontend/src/lib/calculator-state.ts promises, proved about the
 * transition functions of `LiveState` (and so, through the methods'
 * postconditions, about the class).
 */
module LiveProperties {
  import opened Wrappers
  import opened ApiClient
  import opened RemoteCall
  import opened Numerics
  import opened LiveState
  import Instructions

  /** The alphabet `handle` accepts is exactly the one of the instruction classifier. */
  lemma SameAlphabet(inst: string)
    ensures IsInstruction(inst) <==> Instructions.IsInstruction(inst)
  {
    if |inst| == 1 {
      var c := inst[0];
      calc {
        c in InstructionChars;
        c in "0123456789.+-*/^%scdt=";
        c in "0123456789." + "s=+-*/^%" + "cdt";
        c in Instructions.Alphabet;
      }
    }
  }

  /** `c` restores the initial snapshot from any state, error included. */
  lemma ClearRestoresInitial(s: CalculatorSnapshot, reply: Outcome, numerics: FloatOps)
    requires Consistent(s)
    ensures Step(s, 'c', reply, numerics) == (Initial, None)
    ensures DisplayText(Initial) == "0" && ExpressionText(Initial) == ""
  {
  }

  /** Under an error, toggle-sign, delete, square root, the binary operators and
      `=` change nothing and call nothing; the display keeps showing the error. */
  lemma ErrorFreezesState(s: CalculatorSnapshot, inst: char, reply: Outcome, numerics: FloatOps)
    requires Consistent(s) && HasError(s)
    requires inst in "tds=+-*/^%"
    ensures Step(s, inst, reply, numerics) == (s, None)
    ensures DisplayText(s) == s.error.value && ExpressionText(s) == ""
  {
  }

  /** A digit after an error starts from scratch: the digit alone, no error,
      nothing pending. */
  lemma DigitClearsError(s: CalculatorSnapshot, d: char, reply: Outcome, numerics: FloatOps)
    requires Consistent(s) && HasError(s) && '0' <= d <= '9'
    ensures var r := Step(s, d, reply, numerics).0;
            r.display == [d] && r.error == None && r.operand == None && r.operator == None
            && DisplayText(r) == [d] && ExpressionText(r) == ""
  {
  }

  /** `=` with nothing pending is a no-op. */
  lemma EqualWithoutOperatorIsNoOp(s: CalculatorSnapshot, reply: Outcome, numerics: FloatOps)
    requires Consistent(s) && s.operator.None?
    ensures Step(s, '=', reply, numerics) == (s, None)
  {
  }

  /**
   * `=` on a pending pair calls the operation of the operator on `(operand,
   * display)`; on success the result is displayed, nothing is pending, the
   * next digit starts afresh and the expression line is empty.
   */
  lemma EqualResolvesPending(s: CalculatorSnapshot, result: string, numerics: FloatOps)
    requires Consistent(s) && !HasError(s) && s.operator.Some?
    ensures var r := Step(s, '=', Ok(result), numerics);
            r.1 == CallFor(s.operator, s.operand.value, s.display) && r.1.Some?
            && r.0.display == result && DisplayText(r.0) == result
            && r.0.operand.None? && r.0.operator.None? && r.0.resetDisplay
            && ExpressionText(r.0) == ""
  {
  }

  /** `s` sends the display alone to the remote square root, and on success
      behaves like `=`. */
  lemma SqrtCallsRemote(s: CalculatorSnapshot, result: string, numerics: FloatOps)
    requires Consistent(s) && !HasError(s)
    ensures var r := Step(s, 's', Ok(result), numerics);
            r.1 == Some(SqrtCall(s.display))
            && DisplayText(r.0) == result && r.0.resetDisplay
            && r.0.operand.None? && r.0.operator.None? && ExpressionText(r.0) == ""
  {
  }

  /**
   * A binary operator typed after a second number first resolves the pending
   * operation on `(operand, display)`. On success the result becomes both the
   * display and the new operand of the new operator; on failure the error is
   * set and the old operator is still the pending one.
   */
  lemma OperatorChainsPending(s: CalculatorSnapshot, op: char, reply: Outcome, numerics: FloatOps)
    requires Consistent(s) && !HasError(s) && op in "+-*/^%"
    requires s.operator.Some? && !s.resetDisplay
    requires reply.Fail? ==> RejectionMessage(reply.message) != ""
    ensures var r := Step(s, op, reply, numerics);
            r.1 == CallFor(s.operator, s.operand.value, s.display) && r.1.Some?
            && (reply.Ok? ==>
                  r.0.display == reply.result && r.0.operand == Some(reply.result)
                  && r.0.operator == Some(op) && r.0.resetDisplay
                  && ExpressionText(r.0) == reply.result + " " + [op])
            && (reply.Fail? ==>
                  r.0.operator == s.operator && HasError(r.0)
                  && DisplayText(r.0) == RejectionMessage(reply.message))
  {
    var r := Step(s, op, reply, numerics);
    assert r == OperatorStep(s, op, reply);
    if reply.Ok? {
      assert r.0.operand == Some(reply.result) && r.0.operator == Some(op);
    }
  }

  /**
   * A rejected call (from `s`, a chained operator or `=`) shows the rejection
   * message, or "API Error" for a rejection that is not an `Error`; the
   * display field underneath is "0", the expression line is empty and nothing
   * is in flight any more.
   */
  lemma FailedCallShowsMessage(s: CalculatorSnapshot, inst: char, message: Option<string>, numerics: FloatOps)
    requires Consistent(s) && !HasError(s)
    requires RejectionMessage(message) != ""
    requires Step(s, inst, Fail(message), numerics).1.Some?
    ensures var r := Step(s, inst, Fail(message), numerics).0;
            r.display == "0" && r.error == Some(RejectionMessage(message))
            && DisplayText(r) == RejectionMessage(message) && ExpressionText(r) == ""
            && !r.processing
  {
    var r := Step(s, inst, Fail(message), numerics);
    if inst == 's' {
      assert r == SqrtStep(s, Fail(message));
    } else if inst == '=' {
      assert r == EqualStep(s, Fail(message));
    } else {
      assert inst in "+-*/%^";
      assert r == OperatorStep(s, inst, Fail(message));
    }
  }

  /**
   * As written, a rejection whose `Error` has an empty message is not an error
   * to the rest of the machine (`if (this.error)` is false for ""): `=` then
   * ends as after a successful call whose result was "0".
   */
  lemma EmptyRejectionReadsAsZero(s: CalculatorSnapshot, numerics: FloatOps)
    requires Consistent(s) && !HasError(s) && s.operator.Some?
    ensures var r := Step(s, '=', Fail(Some("")), numerics).0;
            r.error == Some("") && !HasError(r) && DisplayText(r) == "0"
            && r.operator.None? && r.resetDisplay
  {
  }

  /** Deleting a single character gives "0", and deleting from "0" stays "0". */
  lemma DeleteBottomsOutAtZero(s: CalculatorSnapshot, reply: Outcome, numerics: FloatOps)
    requires Consistent(s) && !HasError(s) && !s.resetDisplay && |s.display| <= 1
    ensures var r := Step(s, 'd', reply, numerics).0;
            r == s.(display := "0") && Step(r, 'd', reply, numerics).0 == r
  {
  }

  /** No instruction gives the display a second decimal point, provided the
      numbers coming back from the remote service and from negation have at
      most one. */
  lemma StepKeepsSingleDot(s: CalculatorSnapshot, inst: char, reply: Outcome, numerics: FloatOps)
    requires Consistent(s) && Instructions.DotCount(s.display) <= 1
    requires reply.Ok? ==> Instructions.DotCount(reply.result) <= 1
    requires Instructions.DotCount(numerics.negate(s.display)) <= 1
    ensures Instructions.DotCount(Step(s, inst, reply, numerics).0.display) <= 1
  {
    assert Instructions.DotCount("0") == 0 by {
      assert multiset("0") == multiset{'0'};
    }
    if inst == 's' {
      assert Step(s, inst, reply, numerics) == SqrtStep(s, reply);
    } else if inst in "+-*/%^" {
      assert Step(s, inst, reply, numerics) == OperatorStep(s, inst, reply);
    } else if inst == '=' {
      assert Step(s, inst, reply, numerics) == EqualStep(s, reply);
    }
  }

  /** The same over any scripted sequence: the display never holds more than
      one decimal point. */
  lemma {:induction false} RunKeepsSingleDot(s: CalculatorSnapshot, insts: string, replies: seq<Outcome>,
                                             numerics: FloatOps)
    requires Consistent(s) && |replies| == |insts|
    requires Instructions.DotCount(s.display) <= 1
    requires forall i :: 0 <= i < |replies| && replies[i].Ok? ==> Instructions.DotCount(replies[i].result) <= 1
    requires forall x :: Instructions.DotCount(x) <= 1 ==> Instructions.DotCount(numerics.negate(x)) <= 1
    ensures Instructions.DotCount(Run(s, insts, replies, numerics).state.display) <= 1
    decreases |insts|
  {
    if |insts| > 0 {
      var n := |insts| - 1;
      assert forall i :: 0 <= i < n ==> replies[..n][i] == replies[i];
      RunKeepsSingleDot(s, insts[..n], replies[..n], numerics);
      var t := Run(s, insts[..n], replies[..n], numerics);
      if t.failure.None? && IsInstruction([insts[n]]) {
        StepKeepsSingleDot(t.state, insts[n], replies[n], numerics);
        assert Run(s, insts, replies, numerics).state == Step(t.state, insts[n], replies[n], numerics).0;
      } else {
        assert Run(s, insts, replies, numerics).state == t.state;
      }
    }
  }

  /** Between instructions nothing is ever in flight: `isProcessing()` is false
      after every scripted sequence. A named corollary of the invariant `Run`
      keeps (`Consistent` includes `!processing`). */
  lemma RunNeverEndsProcessing(s: CalculatorSnapshot, insts: string, replies: seq<Outcome>, numerics: FloatOps)
    requires Consistent(s) && |replies| == |insts|
    ensures !Run(s, insts, replies, numerics).state.processing
  {
  }
}
