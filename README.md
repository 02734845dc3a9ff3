# Calculator state machine

A Dafny model of the front end of a calculator with six binary operations (add, subtract,
multiply, divide, power, percentage) and a square root. The arithmetic
itself is done by a remote service. The client keeps a small state machine:
the number being typed (`display`), a pending left operand and operator, a
`resetDisplay` flag that makes the next digit start a fresh number, an error
message, and, in the live version, a `processing` flag that is set while a
remote call is in flight. Instructions are single characters: the digits and
`.`, the binary operators `+ - * / ^ %`, `s` (square root), `=`, `c` (clear),
`d` (delete) and `t` (toggle sign).

The model covers these files:

- `Instructions` (`instructions.dfy`) models `frontend/src/calculator/Instructions.ts`: it classifies
  instructions and holds the numeral helpers `appendDigit`, `toggleSign` and
  `safeToString`.
- `ApiClient` (`api_client.dfy`) models `frontend/src/api/calculator.ts`. Each
  operation is a JSON `POST` to `/api/<operation>`. The response is turned into a result or an
  error. The network exchange is a function parameter.
- `RemoteCall` (`remote_call.dfy`) models the `switch` inside `calculate()`,
  which both state machines share. It maps the pending operator symbol to a
  client call and picks the message recorded on a rejection.
- `LiveState` (`live_state.dfy`) models `frontend/src/lib/calculator-state.ts`,
  the version the UI uses.
  - Each handler is a function on snapshots (`DigitStep` … `EqualStep`,
    `Step`, and `Run` for `handleSequence`).
  - The class `LiveState.CalculatorState` has the same fields and updates them in place.
    Every method is proved to move the object's snapshot exactly as the
    matching function does, so the lemmas in `LiveProperties` hold for the object.
- `LegacyState` (`legacy_state.dfy`) models the older
  `frontend/src/calculator/CalculatorState.ts` in the same way. It differs from the live version as follows:
  - It clears an error before every instruction except `c`.
  - It computes the square root locally.
  - Its `getExpression` does not check the error.
  - It has no `processing` flag and no `isProcessing`.
  - It calls the client of `frontend/src/api/calculator.ts`, where the live version calls `frontend/src/lib/api`.
- `CalculatorView` (`calculator_view.dfy`) models the two pieces of logic in
  `frontend/src/components/Calculator.tsx`: the font size picked for a line of
  text, and the mapping from a keyboard key to an instruction.

Each instruction comes with the `Outcome` its remote call settles with: a
result, or a rejection with an optional message. The model uses it only when
the instruction actually calls the service. Every step also returns that call,
so lemmas can say which operation was requested and with which operands.
The floating-point helpers (`parseFloat`, negation, `Math.sqrt`, `toString`)
are the function fields of `Numerics.FloatOps`.

The accessors of both classes are plain reads of the snapshot: `Snapshot`
is `snapshot()`, `GetDisplay` is `getDisplay()` through `DisplayText`, and
`GetExpression` is `getExpression()` through `ExpressionText`. The live class
also has `IsProcessing`, which is `isProcessing()`. Their contracts are those
of `DisplayText` and `ExpressionText`, which have rows below.

## Model

| member | source | states |
|---|---|---|
| Instructions.IsInstruction | frontend/src/calculator/Instructions.ts:13-18 | an instruction is exactly one character that is a digit, `.`, `s`, `=`, a binary operator or one of `c d t` |
| Instructions.IsDigit | frontend/src/calculator/Instructions.ts:20-22 | true exactly for `0`-`9` and `.`; a digit is neither an operator nor a command |
| Instructions.IsOperator | frontend/src/calculator/Instructions.ts:24-26 | the operators are exactly the unary and the binary ones, so exactly the eight characters `s = + - * / ^ %` |
| Instructions.IsUnaryOp | frontend/src/calculator/Instructions.ts:28-30 | the unary operators are exactly `s` and `=` |
| Instructions.IsBinaryOp | frontend/src/calculator/Instructions.ts:32-34 | true exactly for `+ - * / ^ %`; no binary operator is unary |
| Instructions.AppendDigit | frontend/src/calculator/Instructions.ts:38-48 | a second point is dropped; a leading point becomes "0."; a zero is not added to "" or "0"; otherwise the digit is appended; at most one point is kept, and the result has a point iff the input or the digit does |
| Instructions.ToggleSign | frontend/src/calculator/Instructions.ts:50-54 | "" stays ""; a leading minus is removed, otherwise one is added |
| Instructions.ToggleSignInvolution | frontend/src/calculator/Instructions.ts:50-54 | toggling twice gives back a numeral that is empty, unsigned, or a minus sign followed by a non-minus character |
| Instructions.SafeToString | frontend/src/calculator/Instructions.ts:56-58 | never empty; the empty numeral reads as "0"; anything else is unchanged |
| ApiClient.RequestOf | frontend/src/api/calculator.ts:17-22 | a JSON POST to `/api` plus the operation's endpoint; a binary operation sends both operands, sqrt sends only `a` |
| ApiClient.RequestRoundTrip | frontend/src/api/calculator.ts:33-59 | the endpoint and body of each request identify its call, so no two calls send the same request |
| ApiClient.Classify | frontend/src/api/calculator.ts:23-30 | a non-empty `error` wins even when a result is present; otherwise success iff `result` is neither missing nor null; otherwise the failure "Result is empty"; a failure always has a non-empty message |
| ApiClient.Post | frontend/src/api/calculator.ts:17-31 | a rejected exchange fails with its message; a received body is classified; success only when a body came back |
| ApiClient.Invoke | frontend/src/api/calculator.ts:33-59 | a wrapper posts its call's own request; a rejected exchange fails with its message, a received body is classified; every failure carries a message |
| RemoteCall.CallFor | frontend/src/lib/calculator-state.ts:215-239 | a call is made iff the operator is one of `+ - * / ^ % s`; `s` calls sqrt on the operand alone; the others send (operand, display) to the operation with that symbol |
| RemoteCall.CallForSymbol | frontend/src/calculator/CalculatorState.ts:223-233 | each operation's own symbol selects it, with the operands in order |
| LiveState.IsInstruction | frontend/src/lib/calculator-state.ts:3-9 | an instruction is exactly one character of `0123456789.+-*/^%scdt=` |
| LiveState.DisplayText | frontend/src/lib/calculator-state.ts:55-57 | the error when one is set (a non-empty text), else the display |
| LiveState.ExpressionText | frontend/src/lib/calculator-state.ts:59-66 | non-empty iff there is no error and both operand and operator are pending, and then "operand operator" |
| LiveState.DigitStep | frontend/src/lib/calculator-state.ts:108-123 | an error resets everything first; the digit replaces a fresh or "0" display, otherwise it is appended; never more points than before |
| LiveState.DotStep | frontend/src/lib/calculator-state.ts:125-138 | an error resets to "0."; a fresh display becomes "0."; a second point is ignored; otherwise a point is appended and nothing else changes; the result always holds a point |
| LiveState.ClearStep | frontend/src/lib/calculator-state.ts:140-146 | from any state, the initial state with `processing` left as it was |
| LiveState.DeleteStep | frontend/src/lib/calculator-state.ts:148-160 | only the display changes; no change under an error or a fresh result; the last character is dropped, and a single character becomes "0" |
| LiveState.ToggleSignStep | frontend/src/lib/calculator-state.ts:175-180 | no change under an error; otherwise only the display changes, to its negation |
| LiveState.CalculateStep | frontend/src/lib/calculator-state.ts:208-247 | calls the client for the pending operator on (operand, display); success shows the result; failure sets display "0" and records the message or "API Error"; an unknown operator records "Failed to process …"; `processing` ends false and nothing else changes |
| LiveState.SqrtStep | frontend/src/lib/calculator-state.ts:162-173 | no change under an error; otherwise calls the remote sqrt on the display; success gives a fresh result with nothing pending; a failure with a non-empty message leaves the `s` pair and the message; a failure with an empty message reads as the result "0" |
| LiveState.OperatorStep | frontend/src/lib/calculator-state.ts:182-193 | with an operator pending and a number typed, resolves the pending one first and stops on a failure with a non-empty message; otherwise the display ("0" after a failure with an empty message) becomes the operand of the new operator |
| LiveState.EqualStep | frontend/src/lib/calculator-state.ts:195-206 | no change under an error or with nothing pending; otherwise resolves the pending pair, clearing it on success and keeping it on a failure with a non-empty message; a failure with an empty message reads as the result "0" |
| LiveState.Step | frontend/src/lib/calculator-state.ts:83-106 | keeps the consistency invariant: no call in flight, operand pending iff operator pending; only `s`, the operators and `=` call the client |
| LiveState.Run | frontend/src/lib/calculator-state.ts:77-81 | keeps the invariant over a whole sequence; one notified snapshot per handled character (all of them when none is invalid), the last being the final state; at most one call per handled character |
| LiveState.RunExtend | frontend/src/lib/calculator-state.ts:77-81 | a sequence one character longer runs one more `handle` |
| LiveState.RunHandled | frontend/src/lib/calculator-state.ts:77-86 | a valid character after a clean prefix is one more `handle`: its call is added and its snapshot is shown |
| LiveState.RunRejected | frontend/src/lib/calculator-state.ts:77-86 | an invalid character after a clean prefix ends the sequence with "Invalid instruction: …", with nothing further called or shown |
| LiveState.RunStopsAtFailure | frontend/src/lib/calculator-state.ts:77-86 | once an invalid character has thrown, the rest of the sequence has no effect |
| LiveState.CalculatorState.constructor | frontend/src/lib/calculator-state.ts:22-30 | the initial snapshot ("0", nothing pending, no error, not processing), and no listener |
| LiveState.CalculatorState.SetListener | frontend/src/lib/calculator-state.ts:32-34 | registers or removes the listener |
| LiveState.CalculatorState.Notify | frontend/src/lib/calculator-state.ts:36-38 | a registered listener receives the current snapshot |
| LiveState.CalculatorState.Clear | frontend/src/lib/calculator-state.ts:68-75 | every field, `processing` included, is back at its initial value |
| LiveState.CalculatorState.HandleSequence | frontend/src/lib/calculator-state.ts:77-81 | the object ends in the state `Run` gives; a registered listener receives exactly the snapshots `Run` lists, one per handled character; returns the calls made, or the first invalid character's message |
| LiveState.CalculatorState.Handle | frontend/src/lib/calculator-state.ts:83-106 | an invalid instruction throws "Invalid instruction: …" and changes nothing; otherwise the snapshot moves as `Step` says, and the listener is notified once |
| LiveState.CalculatorState.HandleDigit | frontend/src/lib/calculator-state.ts:108-123 | the snapshot moves as `DigitStep` says |
| LiveState.CalculatorState.HandleDot | frontend/src/lib/calculator-state.ts:125-138 | the snapshot moves as `DotStep` says |
| LiveState.CalculatorState.HandleClear | frontend/src/lib/calculator-state.ts:140-146 | the snapshot moves as `ClearStep` says |
| LiveState.CalculatorState.HandleDelete | frontend/src/lib/calculator-state.ts:148-160 | the snapshot moves as `DeleteStep` says |
| LiveState.CalculatorState.HandleSqrt | frontend/src/lib/calculator-state.ts:162-173 | the snapshot and the call are those of `SqrtStep` |
| LiveState.CalculatorState.HandleToggleSign | frontend/src/lib/calculator-state.ts:175-180 | the snapshot moves as `ToggleSignStep` says |
| LiveState.CalculatorState.HandleOperator | frontend/src/lib/calculator-state.ts:182-193 | the snapshot and the call are those of `OperatorStep` |
| LiveState.CalculatorState.HandleEqual | frontend/src/lib/calculator-state.ts:195-206 | the snapshot and the call are those of `EqualStep` |
| LiveState.CalculatorState.Calculate | frontend/src/lib/calculator-state.ts:208-247 | `processing` is true while the call is in flight; the snapshot and the call are then those of `CalculateStep` |
| LiveProperties.SameAlphabet | frontend/src/lib/calculator-state.ts:3-9 | the state machine accepts exactly the instructions of the classifier |
| LiveProperties.ClearRestoresInitial | frontend/src/lib/calculator-state.ts:140-146 | `c` restores the initial state from anywhere, error included |
| LiveProperties.ErrorFreezesState | frontend/src/lib/calculator-state.ts:148-206 | under an error, `t d s = + - * / ^ %` change nothing and call nothing |
| LiveProperties.DigitClearsError | frontend/src/lib/calculator-state.ts:108-111 | a digit after an error shows just that digit, with no error and nothing pending |
| LiveProperties.EqualWithoutOperatorIsNoOp | frontend/src/lib/calculator-state.ts:195-206 | `=` with nothing pending changes nothing |
| LiveProperties.EqualResolvesPending | frontend/src/lib/calculator-state.ts:195-206 | `=` calls the pending operation on (operand, display), for any pending operator a reachable state can hold; on success it shows the result, clears the expression and makes the next digit start afresh |
| LiveProperties.SqrtCallsRemote | frontend/src/lib/calculator-state.ts:162-173 | `s` sends the display alone to the remote sqrt and, on success, shows the result as a fresh number |
| LiveProperties.OperatorChainsPending | frontend/src/lib/calculator-state.ts:182-193 | chaining resolves the pending operation first; the result becomes the new operand ("8 +"); on failure the old operator stays pending and the error shows |
| LiveProperties.FailedCallShowsMessage | frontend/src/lib/calculator-state.ts:240-246 | any rejected call shows its message (or "API Error") over a display of "0", clears the expression line and ends processing |
| LiveProperties.EmptyRejectionReadsAsZero | frontend/src/lib/calculator-state.ts:195-206 | a rejection whose message is "" is not treated as an error: `=` ends as if the result were "0" |
| LiveProperties.DeleteBottomsOutAtZero | frontend/src/lib/calculator-state.ts:148-160 | deleting the last character gives "0", and deleting again leaves "0" |
| LiveProperties.StepKeepsSingleDot | frontend/src/lib/calculator-state.ts:125-138 | no instruction adds a second decimal point, given that results and negation have at most one |
| LiveProperties.RunKeepsSingleDot | frontend/src/lib/calculator-state.ts:77-81 | the same holds after any sequence |
| LiveProperties.RunNeverEndsProcessing | frontend/src/lib/calculator-state.ts:242-245 | no sequence leaves a call in flight |
| LiveScenarios.FivePlusThree | frontend/src/lib/calculator-state.test.ts:214-217 | after `5+` the expression is "5 +"; after `5+3` the display is "3" with "5 +" pending, and no call is made |
| LiveScenarios.AdditionScenario | frontend/src/lib/calculator-state.test.ts:237-243 | `5+3=` calls add("5", "3") and shows "8" with an empty expression |
| LiveScenarios.ChainingScenario | frontend/src/lib/calculator-state.test.ts:227-233 | `5+3+` calls add("5", "3"), shows "8", and the expression is "8 +" |
| LiveScenarios.DivisionByZeroScenario | frontend/src/lib/calculator-state.test.ts:74-82 | a rejected divide shows its message; the next digit starts afresh with no error |
| LiveScenarios.NonErrorRejectionScenario | frontend/src/lib/calculator-state.test.ts:300-304 | a rejection that is not an `Error` shows "API Error" |
| LegacyState.IsInstruction | frontend/src/calculator/CalculatorState.ts:3-9 | an instruction is exactly one character of `0123456789.+-*/^%scdt=` |
| LegacyState.DisplayText | frontend/src/calculator/CalculatorState.ts:93-98 | the error when one is set, else the display |
| LegacyState.ExpressionText | frontend/src/calculator/CalculatorState.ts:100-105 | non-empty iff operand and operator are both pending, error or not, and then "operand operator" |
| LegacyState.DigitStep | frontend/src/calculator/CalculatorState.ts:107-127 | an error leaves just the digit with nothing pending; otherwise as in the live version |
| LegacyState.DotStep | frontend/src/calculator/CalculatorState.ts:129-147 | an error leaves "0." with nothing pending; a fresh display becomes "0."; a second point is ignored; otherwise a point is appended and nothing else changes |
| LegacyState.ClearStep | frontend/src/calculator/CalculatorState.ts:149-155 | always the initial state |
| LegacyState.DeleteStep | frontend/src/calculator/CalculatorState.ts:157-169 | as in the live version |
| LegacyState.SqrtStep | frontend/src/calculator/CalculatorState.ts:171-182 | no remote call; a negative display sets the error "Error"; otherwise the display becomes its local root; a fresh number follows either way |
| LegacyState.ToggleSignStep | frontend/src/calculator/CalculatorState.ts:184-189 | no change under an error; otherwise the display is negated |
| LegacyState.CalculateStep | frontend/src/calculator/CalculatorState.ts:218-238 | as in the live version, without the `processing` flag |
| LegacyState.OperatorStep | frontend/src/calculator/CalculatorState.ts:191-202 | as in the live version |
| LegacyState.EqualStep | frontend/src/calculator/CalculatorState.ts:204-216 | as in the live version |
| LegacyState.DispatchStep | frontend/src/calculator/CalculatorState.ts:73-89 | keeps the invariant: operand pending iff operator pending, and the operator is a binary one; only the binary operators and `=` call the client |
| LegacyState.Step | frontend/src/calculator/CalculatorState.ts:63-91 | keeps the same invariant |
| LegacyState.Run | frontend/src/calculator/CalculatorState.ts:57-61 | keeps the invariant over a sequence; one notified snapshot per handled character (all of them when none is invalid), the last being the final state; at most one call per handled character |
| LegacyState.RunExtend | frontend/src/calculator/CalculatorState.ts:57-61 | a sequence one character longer runs one more `handle` |
| LegacyState.RunHandled | frontend/src/calculator/CalculatorState.ts:57-66 | a valid character after a clean prefix is one more `handle`: its call is added and its snapshot is shown |
| LegacyState.RunRejected | frontend/src/calculator/CalculatorState.ts:57-66 | an invalid character after a clean prefix ends the sequence with "Invalid instruction: …", with nothing further called or shown |
| LegacyState.RunStopsAtFailure | frontend/src/calculator/CalculatorState.ts:57-66 | once an invalid character has thrown, the rest of the sequence has no effect |
| LegacyState.CalculatorState.constructor | frontend/src/calculator/CalculatorState.ts:21-28 | the initial snapshot, and no listener |
| LegacyState.CalculatorState.SetListener | frontend/src/calculator/CalculatorState.ts:30-32 | registers or removes the listener |
| LegacyState.CalculatorState.Notify | frontend/src/calculator/CalculatorState.ts:34-37 | a registered listener receives the current snapshot |
| LegacyState.CalculatorState.Clear | frontend/src/calculator/CalculatorState.ts:49-55 | every field is back at its initial value |
| LegacyState.CalculatorState.HandleSequence | frontend/src/calculator/CalculatorState.ts:57-61 | the object ends in the state `Run` gives; a registered listener receives exactly the snapshots `Run` lists, one per handled character; returns the calls made, or the first invalid character's message |
| LegacyState.CalculatorState.Handle | frontend/src/calculator/CalculatorState.ts:63-91 | an invalid instruction throws and changes nothing; otherwise the snapshot moves as `Step` says, and the listener is notified once |
| LegacyState.CalculatorState.Dispatch | frontend/src/calculator/CalculatorState.ts:73-89 | the snapshot and the call are those of `DispatchStep` |
| LegacyState.CalculatorState.HandleDigit | frontend/src/calculator/CalculatorState.ts:107-127 | the snapshot moves as `DigitStep` says |
| LegacyState.CalculatorState.HandleDot | frontend/src/calculator/CalculatorState.ts:129-147 | the snapshot moves as `DotStep` says |
| LegacyState.CalculatorState.HandleClear | frontend/src/calculator/CalculatorState.ts:149-155 | the snapshot moves as `ClearStep` says |
| LegacyState.CalculatorState.HandleDelete | frontend/src/calculator/CalculatorState.ts:157-169 | the snapshot moves as `DeleteStep` says |
| LegacyState.CalculatorState.HandleSqrt | frontend/src/calculator/CalculatorState.ts:171-182 | the snapshot moves as `SqrtStep` says |
| LegacyState.CalculatorState.HandleToggleSign | frontend/src/calculator/CalculatorState.ts:184-189 | the snapshot moves as `ToggleSignStep` says |
| LegacyState.CalculatorState.HandleOperator | frontend/src/calculator/CalculatorState.ts:191-202 | the snapshot and the call are those of `OperatorStep` |
| LegacyState.CalculatorState.HandleEqual | frontend/src/calculator/CalculatorState.ts:204-216 | the snapshot and the call are those of `EqualStep` |
| LegacyState.CalculatorState.Calculate | frontend/src/calculator/CalculatorState.ts:218-238 | the snapshot and the call are those of `CalculateStep` |
| LegacyProperties.SameAlphabet | frontend/src/calculator/CalculatorState.ts:3-9 | the older state machine accepts exactly the instructions of the classifier |
| LegacyProperties.ErrorClearedFirst | frontend/src/calculator/CalculatorState.ts:68-71 | under an error, every instruction but `c` acts on the initial state: `d` gives the initial state, and an operator records the operand "0" |
| LegacyProperties.ClearRestoresInitial | frontend/src/calculator/CalculatorState.ts:149-155 | `c` restores the initial state from anywhere |
| LegacyProperties.SqrtIsLocal | frontend/src/calculator/CalculatorState.ts:171-182 | `s` never calls the service; a negative display shows "Error"; otherwise the display is its root |
| LegacyProperties.DeleteKeepsResult | frontend/src/calculator/CalculatorState.ts:157-162 | delete does nothing to a fresh result |
| LegacyProperties.EqualResolvesPending | frontend/src/calculator/CalculatorState.ts:204-216 | `=` calls the pending operation on (operand, display) and, on success, shows the result with nothing pending |
| LegacyProperties.OperatorChainsPending | frontend/src/calculator/CalculatorState.ts:191-202 | chaining resolves the pending operation first; the result becomes the new operand; on failure the old operator stays pending |
| LegacyProperties.FailedEqualKeepsExpression | frontend/src/calculator/CalculatorState.ts:100-105 | after a rejected `=` the message shows over "0", and the expression line still shows the pending pair |
| LegacyProperties.StepKeepsSingleDot | frontend/src/calculator/CalculatorState.ts:129-147 | no instruction adds a second decimal point, given that results, negation and the local root have at most one |
| LegacyProperties.RunKeepsSingleDot | frontend/src/calculator/CalculatorState.ts:57-61 | the same holds after any sequence |
| LegacyProperties.StepNeverCallsSqrt | frontend/src/calculator/CalculatorState.ts:171-182 | any call one instruction makes is a binary operation, made by a binary operator or `=` |
| LegacyProperties.RunNeverCallsSqrt | frontend/src/calculator/CalculatorState.ts:57-61 | a sequence never calls the remote square root |
| LegacyProperties.NegativeSqrtScenario | frontend/src/calculator/CalculatorState.ts:171-182 | `4 t s` shows "Error" without any call, and the next digit starts over from that digit |
| CalculatorView.GetTextSize | frontend/src/components/Calculator.tsx:80-88 | the largest font size whose length limit (14, 18, 21, 24, 27, unbounded) the text fits |
| CalculatorView.TextSizeMonotone | frontend/src/components/Calculator.tsx:80-88 | a longer text never gets a larger font |
| CalculatorView.OnKeyDown | frontend/src/components/Calculator.tsx:48-67 | no key is handled while processing; Backspace, Escape and Enter send `d`, `c` and `=`; any other key is sent iff it is an instruction; only "/" suppresses the browser default; everything sent is a valid instruction |
| CalculatorView.EveryInstructionHasAKey | frontend/src/components/Calculator.tsx:60-65 | every instruction can be typed with its own key |
| CalculatorView.ShownText | frontend/src/components/Calculator.tsx:72-74 | "processing..." while a call is in flight, otherwise the display text |
| CalculatorView.KeyboardFollowsProcessing | frontend/src/components/Calculator.tsx:48-74 | after any sequence of instructions every key is handled as on a fresh page and the state's display is shown |

## Behaviour worth knowing

These follow from the code as written.

- A failed call sets the display to "0", because `res` keeps its initial value in `calculate()` in both versions. The old display is not kept. See `LiveState.CalculateStep` and `LiveProperties.FailedCallShowsMessage`.
- A successful call does not clear an existing error. No call is made while an error is set, so this is never visible.
- Only the older version checks for a negative square root locally, setting "Error". The live version sends every square root to the service (`LiveProperties.SqrtCallsRemote`).
- The older version clears an error before every instruction except `c`, not only before a digit or `.` (`LegacyProperties.ErrorClearedFirst`). So under an error, `+` there records the operand "0".
- The error test is JavaScript truthiness, so an error message of "" does not count as an error. A rejection with an empty message therefore ends `=` as if the result were "0" (`LiveProperties.EmptyRejectionReadsAsZero`).

## Left out

- Floating point: `parseFloat`, unary minus, `Math.sqrt`, the `< 0` test and `toString` are the fields of `Numerics.FloatOps`. Their IEEE-754 behaviour (NaN, `-0`, exponent notation) is not modelled. Toggle-sign and the older local square root are proved relative to those functions.
- Network and JSON: `fetch` and `response.json()` are the `exchange` parameter of `ApiClient.Post`. How the state machines' calls settle is the `Outcome` given with each instruction. A number-valued `result` is carried in its string form.
- The live version calls `frontend/src/lib/api`, which is not part of this model. It is modelled through the same `Call` and `Outcome` types as `frontend/src/api/calculator.ts`. Its different URL prefix, exercised by its own tests, is not captured.
- Concurrency: each `handle` is awaited before the next one starts. Overlapping `handle` calls, such as UI clicks while a call is in flight, are not modelled. The view only drops keys while `processing` is set.
- The 300 ms timer that notifies the listener early while a call is pending is left out. So is the older version's `console.log` in `notify`. The listener is modelled as the list of snapshots it received.
- `LiveState.CalculatorState.Calculate`: the intermediate snapshot with `processing` true is given only as a ghost out-parameter. It is not a state a listener can observe here.
- `CalculatorView`: only `getTextSize`, the key handler and the choice of display text are modelled. The React markup, the button handlers (each calls `handle` with its own instruction, disabled while processing) and the styling are not.
- CalculatorView.GetTextSize: measures a text's length in Unicode characters, as Dafny's `string` does. The source's `text.length` counts UTF-16 code units, so a text with characters above U+FFFF (an error message from the server, say) gets a larger font here than in the browser.
- LiveState.DeleteStep and LegacyState.DeleteStep: drop the last Unicode character, where `slice(0, -1)` drops the last UTF-16 code unit. The two differ only for a display ending in a character above U+FFFF, which typed input never produces.
