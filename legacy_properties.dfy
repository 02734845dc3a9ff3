/**
 * What frontend/src/calculator/CalculatorState.ts promises, proved about the
 * transition functions of `LegacyState`.
 */
module LegacyProperties {
  import opened Wrappers
  import opened ApiClient
  import opened RemoteCall
  import opened Numerics
  import opened LegacyState
  import Instructions

  /** The alphabet `handle` accepts is exactly the one of the instruction classifier. */
  lemma SameAlphabet(inst: string)
    ensures IsInstruction(inst) <==> Instructions.IsInstruction(inst)
  {
    if |inst| == 1 {
      var c := inst[0];
      calc {
        c in InstructionChars;
        c in "0123456789.+-*/^%scdt=";
        c in "0123456789." + "s=+-*/^%" + "cdt";
        c in Instructions.Alphabet;
      }
    }
  }

  /**
   * In error state every instruction but `c` acts on the default state: the
   * error is gone, delete gives "0", and an operator records operand "0".
   */
  lemma ErrorClearedFirst(s: CalculatorSnapshot, inst: char, reply: Outcome, numerics: FloatOps)
    requires Consistent(s) && HasError(s) && inst != 'c'
    ensures Step(s, inst, reply, numerics) == Step(Initial, inst, reply, numerics)
    ensures inst == 'd' ==> Step(s, inst, reply, numerics) == (Initial, None)
    ensures inst in "+-*/^%" ==>
              Step(s, inst, reply, numerics) == (Initial.(operand := Some("0"), operator := Some(inst), resetDisplay := true), None)
  {
  }

  /** `c` restores the default state from anywhere. */
  lemma ClearRestoresInitial(s: CalculatorSnapshot, reply: Outcome, numerics: FloatOps)
    requires Consistent(s)
    ensures Step(s, 'c', reply, numerics) == (Initial, None)
    ensures DisplayText(Initial) == "0" && ExpressionText(Initial) == ""
  {
  }

  /**
   * The square root never calls the remote service. Without an error, a
   * negative display sets the error "Error", and any other display becomes
   * its locally computed root; either way the next digit starts afresh.
   */
  lemma SqrtIsLocal(s: CalculatorSnapshot, reply: Outcome, numerics: FloatOps)
    requires Consistent(s) && !HasError(s)
    ensures var r := Step(s, 's', reply, numerics);
            r.1 == None && r.0.resetDisplay
            && (numerics.isNegative(s.display) ==> r.0.error == Some("Error") && DisplayText(r.0) == "Error")
            && (!numerics.isNegative(s.display) ==> r.0.display == numerics.sqrt(s.display) && r.0.error == s.error)
  {
  }

  /** Delete does nothing to a fresh result. */
  lemma DeleteKeepsResult(s: CalculatorSnapshot, reply: Outcome, numerics: FloatOps)
    requires Consistent(s) && !HasError(s) && s.resetDisplay
    ensures Step(s, 'd', reply, numerics) == (s, None)
  {
  }

  /** `=` on a pending pair calls the operation on `(operand, display)`; on
      success the result is shown with nothing pending. */
  lemma EqualResolvesPending(s: CalculatorSnapshot, result: string, numerics: FloatOps)
    requires Consistent(s) && !HasError(s)
    requires s.operator.Some? && s.operator.value in "+-*/^%s"
    ensures var r := Step(s, '=', Ok(result), numerics);
            r.1 == CallFor(s.operator, s.operand.value, s.display) && r.1.Some?
            && DisplayText(r.0) == result && r.0.resetDisplay
            && r.0.operand.None? && r.0.operator.None? && ExpressionText(r.0) == ""
  {
  }

  /** A binary operator after a second number resolves the pending operation
      first; on failure the new operator is not recorded. */
  lemma OperatorChainsPending(s: CalculatorSnapshot, op: char, reply: Outcome, numerics: FloatOps)
    requires Consistent(s) && !HasError(s) && op in "+-*/^%"
    requires s.operator.Some? && s.operator.value in "+-*/^%s" && !s.resetDisplay
    requires reply.Fail? ==> RejectionMessage(reply.message) != ""
    ensures var r := Step(s, op, reply, numerics);
            r.1 == CallFor(s.operator, s.operand.value, s.display) && r.1.Some?
            && (reply.Ok? ==>
                  r.0.display == reply.result && r.0.operand == Some(reply.result)
                  && r.0.operator == Some(op) && r.0.resetDisplay)
            && (reply.Fail? ==>
                  r.0.operator == s.operator && HasError(r.0) && r.0.display == "0")
  {
    var r := Step(s, op, reply, numerics);
    assert r == OperatorStep(s, op, reply);
  }

  /**
   * A rejected `=` shows the message (or "API Error") over a display of "0"
   * and keeps the pending pair; unlike the live version, the expression line
   * still shows it, because `getExpression` does not look at the error.
   */
  lemma FailedEqualKeepsExpression(s: CalculatorSnapshot, message: Option<string>, numerics: FloatOps)
    requires Consistent(s) && !HasError(s)
    requires s.operator.Some? && s.operator.value in "+-*/^%s"
    requires RejectionMessage(message) != ""
    ensures var r := Step(s, '=', Fail(message), numerics).0;
            r.display == "0" && DisplayText(r) == RejectionMessage(message)
            && ExpressionText(r) == s.operand.value + " " + [s.operator.value]
  {
  }

  /** No instruction gives the display a second decimal point, provided the
      remote results, negation and the local square root give at most one. */
  lemma StepKeepsSingleDot(s: CalculatorSnapshot, inst: char, reply: Outcome, numerics: FloatOps)
    requires Consistent(s) && Instructions.DotCount(s.display) <= 1
    requires reply.Ok? ==> Instructions.DotCount(reply.result) <= 1
    requires forall x :: Instructions.DotCount(numerics.negate(x)) <= 1 && Instructions.DotCount(numerics.sqrt(x)) <= 1
    ensures Instructions.DotCount(Step(s, inst, reply, numerics).0.display) <= 1
  {
    assert Instructions.DotCount("0") == 0 by {
      assert multiset("0") == multiset{'0'};
    }
    var st := if HasError(s) && inst != 'c' then ClearStep(s) else s;
    var r := DispatchStep(st, inst, reply, numerics);
    assert Step(s, inst, reply, numerics) == r;
    if inst in "+-*/^%" {
      assert r == OperatorStep(st, inst, reply);
    } else if inst == '=' {
      assert r == EqualStep(st, reply);
    }
  }

  /** The same over any scripted sequence. */
  lemma {:induction false} RunKeepsSingleDot(s: CalculatorSnapshot, insts: string, replies: seq<Outcome>,
                                             numerics: FloatOps)
    requires Consistent(s) && |replies| == |insts|
    requires Instructions.DotCount(s.display) <= 1
    requires forall i :: 0 <= i < |replies| && replies[i].Ok? ==> Instructions.DotCount(replies[i].result) <= 1
    requires forall x :: Instructions.DotCount(numerics.negate(x)) <= 1 && Instructions.DotCount(numerics.sqrt(x)) <= 1
    ensures Instructions.DotCount(Run(s, insts, replies, numerics).state.display) <= 1
    decreases |insts|
  {
    if |insts| > 0 {
      var n := |insts| - 1;
      assert forall i :: 0 <= i < n ==> replies[..n][i] == replies[i];
      RunKeepsSingleDot(s, insts[..n], replies[..n], numerics);
      var t := Run(s, insts[..n], replies[..n], numerics);
      RunExtend(s, insts, replies, numerics, n);
      assert insts[..n + 1] == insts && replies[..n + 1] == replies;
      if t.failure.None? && IsInstruction([insts[n]]) {
        StepKeepsSingleDot(t.state, insts[n], replies[n], numerics);
      }
    }
  }

  /** No single instruction calls the remote square root. */
  lemma StepNeverCallsSqrt(s: CalculatorSnapshot, inst: char, reply: Outcome, numerics: FloatOps)
    requires Consistent(s)
    ensures var r := Step(s, inst, reply, numerics);
            r.1.Some? ==> r.1.value.BinaryCall? && inst in "+-*/^%="
  {
    var st := if HasError(s) && inst != 'c' then ClearStep(s) else s;
    var r := DispatchStep(st, inst, reply, numerics);
    assert Step(s, inst, reply, numerics) == r;
    if r.1.Some? {
      if inst == '=' {
        assert r == EqualStep(st, reply);
      } else {
        assert r == OperatorStep(st, inst, reply);
      }
    }
  }

  /** Every call in `calls` is one of the six binary operations. */
  predicate AllBinary(calls: seq<Call>) {
    forall i :: 0 <= i < |calls| ==> calls[i].BinaryCall?
  }

  /** A sequence never calls the remote square root: every call it makes is
      one of the six binary operations. */
  lemma {:induction false} RunNeverCallsSqrt(s: CalculatorSnapshot, insts: string, replies: seq<Outcome>,
                                             numerics: FloatOps)
    requires Consistent(s) && |replies| == |insts|
    ensures AllBinary(Run(s, insts, replies, numerics).calls)
    decreases |insts|
  {
    if |insts| > 0 {
      var n := |insts| - 1;
      RunNeverCallsSqrt(s, insts[..n], replies[..n], numerics);
      var t := Run(s, insts[..n], replies[..n], numerics);
      if t.failure.None? && IsInstruction([insts[n]]) {
        var next := Step(t.state, insts[n], replies[n], numerics);
        StepNeverCallsSqrt(t.state, insts[n], replies[n], numerics);
        assert Run(s, insts, replies, numerics).calls == t.calls + ToSeq(next.1);
        assert AllBinary(ToSeq(next.1));
      }
    }
  }

  /** `4`, `t`, `s`: the root of a negative number shows "Error" without any
      call, and the next digit starts over from that digit. */
  lemma NegativeSqrtScenario(numerics: FloatOps, reply: Outcome)
    requires numerics.isNegative(numerics.negate("4"))
    ensures var s1 := Step(Initial, '4', reply, numerics).0;
            var s2 := Step(s1, 't', reply, numerics).0;
            var s3 := Step(s2, 's', reply, numerics);
            var s4 := Step(s3.0, '7', reply, numerics).0;
            s3.1.None? && DisplayText(s3.0) == "Error" && ExpressionText(s3.0) == ""
            && s4 == Initial.(display := "7")
  {
    var s1 := Step(Initial, '4', reply, numerics).0;
    assert s1 == Initial.(display := "4");
    var s2 := Step(s1, 't', reply, numerics).0;
    assert s2 == Initial.(display := numerics.negate("4"));
    var s3 := Step(s2, 's', reply, numerics);
    assert s3 == (SqrtStep(s2, numerics), None);
  }
}
