/**
 * The two pieces of logic in frontend/src/components/Calculator.tsx: the font
 * size chosen for a line of text, and the mapping from a key press to the
 * instruction it sends to the live state machine.
 */
module CalculatorView {
  import opened Wrappers
  import LiveState
  import Numerics
  import opened ApiClient

  /** The Tailwind font-size classes `getTextSize` chooses from, largest first. */
  datatype TextSize = Text3xl | Text2xl | TextXl | TextLg | TextBase | TextSm

  function ClassName(size: TextSize): string {
    match size
    case Text3xl => "text-3xl"
    case Text2xl => "text-2xl"
    case TextXl => "text-xl"
    case TextLg => "text-lg"
    case TextBase => "text-base"
    case TextSm => "text-sm"
  }

  /** Larger fonts have larger ranks. */
  function Rank(size: TextSize): nat {
    match size
    case Text3xl => 5
    case Text2xl => 4
    case TextXl => 3
    case TextLg => 2
    case TextBase => 1
    case TextSm => 0
  }

  /** A text fits a size when its length is at most that size's limit; the
      smallest size takes any length. */
  predicate Fits(text: string, size: TextSize) {
    match size
    case Text3xl => |text| <= 14
    case Text2xl => |text| <= 18
    case TextXl => |text| <= 21
    case TextLg => |text| <= 24
    case TextBase => |text| <= 27
    case TextSm => true
  }

  /** `getTextSize`: the largest size the text fits. */
  function GetTextSize(text: string): (r: TextSize)
    ensures Fits(text, r)
    ensures forall larger: TextSize :: Rank(larger) > Rank(r) ==> !Fits(text, larger)
  {
    var len := |text|;
    if len <= 14 then Text3xl
    else if len <= 18 then Text2xl
    else if len <= 21 then TextXl
    else if len <= 24 then TextLg
    else if len <= 27 then TextBase
    else TextSm
  }

  /** A longer text never gets a larger font. */
  lemma TextSizeMonotone(a: string, b: string)
    requires |a| <= |b|
    ensures Rank(GetTextSize(b)) <= Rank(GetTextSize(a))
  {
    // the size chosen for b fits the shorter a too, and a's size is the largest that fits
    assert Fits(a, GetTextSize(b));
  }

  /** What a handled key press does: the instruction passed to `handle`, and
      whether the browser's default action is suppressed. */
  datatype KeyAction = KeyAction(inst: string, preventDefault: bool)

  /**
   * `handleKeyDown`: nothing while a call is in flight; Backspace, Escape and
   * Enter stand for delete, clear and equals; any other key is sent as it is
   * when it is an instruction, and "/" also suppresses the browser's
   * quick-find.
   */
  function OnKeyDown(processing: bool, key: string): (r: Option<KeyAction>)
    ensures processing ==> r.None?
    ensures r.Some? ==> LiveState.IsInstruction(r.value.inst)
    ensures r.Some? ==> (r.value.preventDefault <==> key == "/")
    ensures !processing && key == "Backspace" ==> r == Some(KeyAction("d", false))
    ensures !processing && key == "Escape" ==> r == Some(KeyAction("c", false))
    ensures !processing && key == "Enter" ==> r == Some(KeyAction("=", false))
    ensures !processing && key !in {"Backspace", "Escape", "Enter"} ==>
              (r.Some? <==> LiveState.IsInstruction(key)) && (r.Some? ==> r.value.inst == key)
  {
    if processing then None
    else if key == "Backspace" then Some(KeyAction("d", false))
    else if key == "Escape" then Some(KeyAction("c", false))
    else if key == "Enter" then Some(KeyAction("=", false))
    else if LiveState.IsInstruction(key) then Some(KeyAction(key, key == "/"))
    else None
  }

  /** Every instruction can be typed: its own key sends it. */
  lemma EveryInstructionHasAKey(inst: string)
    requires LiveState.IsInstruction(inst)
    ensures OnKeyDown(false, inst) == Some(KeyAction(inst, inst == "/"))
  {
    assert inst != "Backspace" && inst != "Escape" && inst != "Enter" by {
      assert |inst| == 1;
    }
  }

  /** The main display line: "processing..." while a call is in flight,
      otherwise what `getDisplay` gives. */
  function ShownText(s: LiveState.CalculatorSnapshot): (r: string)
    ensures s.processing ==> r == "processing..."
    ensures !s.processing ==> r == LiveState.DisplayText(s)
  {
    if s.processing then "processing..." else LiveState.DisplayText(s)
  }

  /**
   * After any scripted sequence the keyboard is live again: every key is
   * handled as on a fresh page and the display line is the state's own
   * display.
   */
  lemma KeyboardFollowsProcessing(s: LiveState.CalculatorSnapshot, insts: string, replies: seq<Outcome>,
                                  numerics: Numerics.FloatOps, key: string)
    requires LiveState.Consistent(s) && |replies| == |insts|
    ensures var t := LiveState.Run(s, insts, replies, numerics).state;
            ShownText(t) == LiveState.DisplayText(t) && OnKeyDown(t.processing, key) == OnKeyDown(false, key)
  {
  }
}
