/**
 * The input bar (frontend/src/components/InputForm.js): what it derives from
 * the props the session controller passes down. The bar itself only renders;
 * these are the values its markup is built from.
 */
module InputForm {
  import Text

  /** The props App passes to the bar that the bar's logic reads. */
  datatype Props = Props(inputText: string, isLoading: bool, error: string, isEditing: bool)

  /** What the bar shows. */
  datatype View = View(
    barClass: string,         // the bar's class list
    textareaDisabled: bool,
    submitDisabled: bool,
    spinner: bool,            // the button shows the spinner instead of the arrow
    charCount: nat,
    errorShown: bool)         // the error paragraph is rendered

  /**
   * The submit button's `disabled`: loading, or nothing but whitespace typed.
   * This is the single-flight guard: no click reaches the controller while a
   * request is in flight.
   */
  function SubmitDisabled(isLoading: bool, inputText: string): (disabled: bool)
    ensures disabled <==> isLoading || Text.AllIn(inputText, Text.JsWhitespace)
    ensures !disabled ==> inputText != ""
  {
    isLoading || Text.JsTrim(inputText) == ""
  }

  /** `charCount`: the length JavaScript reports, in UTF-16 code units. */
  function CharCount(inputText: string): (n: nat)
    ensures n >= |inputText|
    ensures n == |inputText| <==> forall i :: 0 <= i < |inputText| ==> inputText[i] as int < 0x10000
  {
    Text.Utf16Length(inputText)
  }

  function Render(p: Props): (v: View)
    ensures v.textareaDisabled <==> p.isLoading
    ensures v.submitDisabled <==> p.isLoading || Text.AllIn(p.inputText, Text.JsWhitespace)
    ensures v.spinner <==> p.isLoading
    ensures v.barClass == "input-bar " <==> p.isEditing
    ensures v.errorShown <==> p.error != ""
    ensures v.charCount == CharCount(p.inputText)
  {
    View(
      barClass := BarClass(p.isEditing),
      textareaDisabled := p.isLoading,
      submitDisabled := SubmitDisabled(p.isLoading, p.inputText),
      spinner := p.isLoading,
      charCount := CharCount(p.inputText),
      errorShown := p.error != "")
  }

  /** The textarea's state depends on loading alone: switching between editing and result mode never disables it. */
  lemma TextareaIgnoresEditing(p: Props)
    ensures Render(p).textareaDisabled == Render(p.(isEditing := !p.isEditing)).textareaDisabled
    ensures Render(p.(isLoading := false)).textareaDisabled == false
  {
  }

  /** The cap on the textarea's height, in pixels. */
  const MaxHeight := 200

  datatype Overflow = Hidden | Auto

  /** The auto-resize effect's outcome: the height set on the textarea and its vertical overflow. */
  datatype Sizing = Sizing(height: int, overflowY: Overflow)

  /**
   * The resize effect, given the textarea's natural `scrollHeight`: the box
   * grows with its content up to the cap, and a scrollbar appears exactly when
   * content is cut off.
   */
  function Resize(scrollHeight: int): (r: Sizing)
    ensures r.height <= MaxHeight
    ensures r.height == scrollHeight || r.height == MaxHeight
    ensures scrollHeight <= MaxHeight ==> r.height == scrollHeight
    ensures r.overflowY == Auto <==> r.height < scrollHeight
  {
    Sizing(
      height := if scrollHeight < MaxHeight then scrollHeight else MaxHeight,
      overflowY := if scrollHeight > MaxHeight then Auto else Hidden)
  }

  /** Growing content never shrinks the box, and a box at the cap stays there. */
  lemma ResizeMonotone(h1: int, h2: int)
    requires h1 <= h2
    ensures Resize(h1).height <= Resize(h2).height
    ensures Resize(h1).overflowY == Auto ==> Resize(h2).overflowY == Auto
  {
  }

  /** The class list of the bar: "input-bar " followed by " minimized" outside editing mode. */
  function BarClass(isEditing: bool): (c: string)
    ensures "input-bar " <= c
    ensures isEditing ==> c == "input-bar "
    ensures !isEditing ==> c[|"input-bar "|..] == " minimized"
    ensures c == "input-bar " <==> isEditing
  {
    "input-bar " + (if !isEditing then " minimized" else "")
  }
}
