/** The preview pane: on every change of the code it clears its state, refuses code without
    the `React.createElement` marker, and otherwise evaluates the code (an oracle here) and
    shows the element it returns or an error message. */
module PreviewPane {
  import opened Js

  /** The marker the code must contain before it is evaluated. */
  const Marker: string := "React.createElement"
  const NoMarkerMessage: string := "Preview only available for React.createElement code"
  const NoElemMessage: string := "Code must define an elem function"
  const InvalidElementMessage: string := "Invalid React element returned"
  const FallbackMessage: string := "Failed to render preview"

  /** A rendered element, identified only by which one it is. */
  datatype Element = Element(id: nat)

  /** What `elem()` returned: a valid React element or some other value. */
  datatype Value = ValidElement(element: Element) | OtherValue

  /** Compiling the code into an async function: it succeeds or throws (a syntax error). */
  datatype Compilation = Compiled | SyntaxError(message: string)

  /** How running the compiled code settles. */
  datatype Evaluation =
    | ElemReturned(value: Value)   // `elem` is a function and `elem()` returned
    | NoElemFunction               // the code does not define `elem` as a function
    | Threw(message: string)       // the code or `elem()` threw

  /** `err.message || 'Failed to render preview'`. */
  function ErrorText(message: string): (r: string)
    ensures r != ""
    ensures message != "" ==> r == message
    ensures message == "" ==> r == FallbackMessage
  {
    OrElse(message, FallbackMessage)
  }

  /** What the pane shows. */
  datatype Pane = ShowError(message: string) | ShowElement(element: Element) | Placeholder

  /** The pane's render: an error if one is set, else the element if one is set, else the
      "No preview available" placeholder. */
  function Display(error: Option<string>, element: Option<Element>): (p: Pane)
    ensures p.ShowError? <==> Truthy(error)
    ensures p.ShowError? ==> p.message == error.value
    ensures p.ShowElement? <==> !Truthy(error) && element.Some?
    ensures p.ShowElement? ==> p.element == element.value
  {
    if Truthy(error) then ShowError(error.value)
    else if element.Some? then ShowElement(element.value)
    else Placeholder
  }

  class Preview {
    var error: Option<string>
    var element: Option<Element>

    constructor ()
      ensures error == None && element == None
    {
      error, element := None, None;
    }

    function View(): Pane
      reads this
    {
      Display(error, element)
    }

    /** The effect on a new `code`: clear both fields, then show nothing for empty code, refuse
        code without the marker, report a syntax error, or start an evaluation (whose result
        `Settle` delivers). Nothing is ever thrown out of it. */
    method OnCodeChange(code: string, compile: Compilation) returns (evaluating: bool)
      modifies this
      ensures element == None
      ensures evaluating <==> code != "" && Includes(code, Marker) && compile.Compiled?
      ensures code == "" ==> error == None && View() == Placeholder
      ensures code != "" && !Includes(code, Marker) ==>
                error == Some(NoMarkerMessage) && View() == ShowError(NoMarkerMessage)
      ensures code != "" && Includes(code, Marker) && compile.SyntaxError? ==>
                error == Some(ErrorText(compile.message))
      ensures evaluating ==> error == None && View() == Placeholder
    {
      error := None;
      element := None;
      evaluating := false;
      if code == "" {
        return;
      }
      if !Includes(code, Marker) {
        error := Some(NoMarkerMessage);
        return;
      }
      match compile {
        case SyntaxError(m) =>
          error := Some(ErrorText(m));
        case Compiled =>
          evaluating := true;
      }
    }

    /** An evaluation settles: a valid element is stored, anything else becomes an error
        message. The other field is left as it is, and nothing checks whether the code has
        changed since the evaluation started. */
    method Settle(outcome: Evaluation)
      modifies this
      ensures outcome.ElemReturned? && outcome.value.ValidElement? ==>
                element == Some(outcome.value.element) && error == old(error)
      ensures outcome == ElemReturned(OtherValue) ==>
                error == Some(InvalidElementMessage) && element == old(element)
      ensures outcome == NoElemFunction ==>
                error == Some(NoElemMessage) && element == old(element)
      ensures outcome.Threw? ==>
                error == Some(ErrorText(outcome.message)) && element == old(element)
    {
      match outcome {
        case ElemReturned(ValidElement(e)) =>
          element := Some(e);
        case ElemReturned(OtherValue) =>
          error := Some(InvalidElementMessage);
        case NoElemFunction =>
          error := Some(NoElemMessage);
        case Threw(m) =>
          error := Some(ErrorText(m));
      }
    }
  }

  /** An evaluation started for older code still reaches the screen: the code changes to the
      empty string while the evaluation of the first code is in flight, and when that
      evaluation settles its element is shown instead of the placeholder. */
  method StaleEvaluationShown() returns (shown: Pane)
    ensures shown == ShowElement(Element(1))
  {
    var pane := new Preview();
    var code := "function elem() { return " + Marker + "('p') }";
    IncludesMiddle("function elem() { return ", Marker, "('p') }");
    var started := pane.OnCodeChange(code, Compiled);
    assert started;
    var _ := pane.OnCodeChange("", Compiled);
    assert pane.View() == Placeholder;
    pane.Settle(ElemReturned(ValidElement(Element(1))));
    shown := pane.View();
  }
}
