/**
 * Scripted sequences from frontend/src/lib/calculator-state.test.ts, replayed
 * one `Step` at a time with the mocked client replies written out.
 */
module LiveScenarios {
  import opened Wrappers
  import opened ApiClient
  import opened Numerics
  import opened LiveState

  /** The state after `5+3`: operand "5" with `+` pending and "3" being typed. */
  lemma FivePlusThree(reply: Outcome, numerics: FloatOps)
    ensures var s1 := Step(Initial, '5', reply, numerics);
            var s2 := Step(s1.0, '+', reply, numerics);
            var s3 := Step(s2.0, '3', reply, numerics);
            s1.1 == s2.1 == s3.1 == None
            && s3.0 == Initial.(display := "3", operand := Some("5"), operator := Some('+'))
            && ExpressionText(s2.0) == "5 +"
  {
    var s1 := Step(Initial, '5', reply, numerics).0;
    assert s1 == Initial.(display := "5");
    var s2 := Step(s1, '+', reply, numerics).0;
    assert s2 == s1.(operand := Some("5"), operator := Some('+'), resetDisplay := true);
  }

  /** `5+3=` with `add` resolving to "8": add is called with ("5", "3"), "8" is
      shown and the expression line is empty. */
  lemma AdditionScenario(numerics: FloatOps)
    ensures var s := Initial.(display := "3", operand := Some("5"), operator := Some('+'));
            var r := Step(s, '=', Ok("8"), numerics);
            r.1 == Some(BinaryCall(Add, "5", "3"))
            && DisplayText(r.0) == "8" && ExpressionText(r.0) == ""
  {
  }

  /** `5+3+` with `add` resolving to "8": the pending addition is resolved
      first and "8 +" is the new expression. */
  lemma ChainingScenario(numerics: FloatOps)
    ensures var s := Initial.(display := "3", operand := Some("5"), operator := Some('+'));
            var r := Step(s, '+', Ok("8"), numerics);
            r.1 == Some(BinaryCall(Add, "5", "3"))
            && DisplayText(r.0) == "8" && ExpressionText(r.0) == "8 +"
  {
  }

  /** `5/0=` with `divide` rejecting with "division by zero": the message is
      shown; a following `3` starts afresh with no error and no expression. */
  lemma DivisionByZeroScenario(numerics: FloatOps)
    ensures var s := Initial.(display := "0", operand := Some("5"), operator := Some('/'));
            var r := Step(s, '=', Fail(Some("division by zero")), numerics);
            var next := Step(r.0, '3', Fail(Some("division by zero")), numerics);
            r.1 == Some(BinaryCall(Divide, "5", "0"))
            && DisplayText(r.0) == "division by zero"
            && next.0.display == "3" && next.0.error == None && ExpressionText(next.0) == ""
  {
    var s := Initial.(display := "0", operand := Some("5"), operator := Some('/'));
    var r := Step(s, '=', Fail(Some("division by zero")), numerics);
    assert r == EqualStep(s, Fail(Some("division by zero")));
    assert r.0 == s.(error := Some("division by zero"));
    var next := Step(r.0, '3', Fail(Some("division by zero")), numerics);
    assert next == (DigitStep(r.0, '3'), None);
  }

  /** `5+3=` with `add` rejecting with a value that is not an `Error`: "API Error" is shown. */
  lemma NonErrorRejectionScenario(numerics: FloatOps)
    ensures var s := Initial.(display := "3", operand := Some("5"), operator := Some('+'));
            DisplayText(Step(s, '=', Fail(None), numerics).0) == "API Error"
  {
  }
}
