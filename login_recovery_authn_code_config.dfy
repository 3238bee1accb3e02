/**
  The recovery-code setup page (src/login/pages/LoginRecoveryAuthnCodeConfig.tsx):
  how each generated code is shown, and how the confirmation checkbox gates
  the save button.
 */
module LoginRecoveryAuthnCodeConfig {
  import opened Js

  /** The three chunks a code is shown in: `code.slice(0, 4)`, `code.slice(4, 8)`, `code.slice(8)`. */
  function Chunks(code: string): (r: (string, string, string))
    ensures r.0 + r.1 + r.2 == code
    ensures |r.0| <= 4 && |r.1| <= 4
    ensures |code| >= 8 ==> |r.0| == 4 && |r.1| == 4 && |r.2| == |code| - 8
    ensures |code| < 8 ==> r.2 == ""
    ensures |code| < 4 ==> r.0 == code && r.1 == ""
    ensures 4 <= |code| ==> r.0 == code[..4]
    ensures 4 <= |code| < 8 ==> r.1 == code[4..]
    ensures |code| >= 8 ==> r.1 == code[4..8] && r.2 == code[8..]
  {
    var r := (Slice(code, 0, 4), Slice(code, 4, 8), SliceFrom(code, 8));
    assert |code| < 4 ==> r.0 == code;
    assert 4 <= |code| < 8 ==> r.0 == code[..4] && r.1 == code[4..];
    assert |code| >= 8 ==> code == code[..4] + code[4..8] + code[8..];
    r
  }

  /** A twelve-character code is shown as three groups of four. */
  lemma TwelveCharacterCodeSplitsEvenly(code: string)
    requires |code| == 12
    ensures Chunks(code) == (code[..4], code[4..8], code[8..])
    ensures |Chunks(code).0| == 4 && |Chunks(code).1| == 4 && |Chunks(code).2| == 4
  {
  }

  /** The text a code's list item shows after its number: the chunks separated by hyphens. */
  function CodeText(code: string): string {
    var c := Chunks(code);
    c.0 + "-" + c.1 + "-" + c.2
  }

  /** One list item of the recovery codes list: its number and its text. */
  datatype Item = Item(number: nat, text: string)

  /** The list items: one per generated code, in order, numbered from 1. */
  function CodeItems(codes: seq<string>): (items: seq<Item>)
    ensures |items| == |codes|
    ensures forall i :: 0 <= i < |codes| ==> items[i].number == i + 1
    ensures forall i :: 0 <= i < |codes| ==>
      var c := Chunks(codes[i]); items[i].text == c.0 + "-" + c.1 + "-" + c.2 && c.0 + c.1 + c.2 == codes[i]
  {
    seq(|codes|, i requires 0 <= i < |codes| => Item(i + 1, CodeText(codes[i])))
  }

  /** The buttons of the settings form. */
  datatype Button =
    | SaveButton(disabled: bool)   // id saveRecoveryAuthnCodesBtn
    | CancelButton                 // id cancelRecoveryAuthnCodesBtn, name cancel-aia

  function Buttons(isAppInitiatedAction: bool, isConfirmed: bool): seq<Button> {
    if isAppInitiatedAction then [SaveButton(!isConfirmed), CancelButton] else [SaveButton(!isConfirmed)]
  }

  /**
    Every save button is disabled exactly when the codes are not confirmed;
    a cancel button is there only for an app-initiated action and carries no
    disabled flag at all; there is always exactly one save button.
   */
  lemma ButtonRules(isAppInitiatedAction: bool, isConfirmed: bool)
    ensures forall b :: b in Buttons(isAppInitiatedAction, isConfirmed) && b.SaveButton? ==> (b.disabled <==> !isConfirmed)
    ensures CancelButton in Buttons(isAppInitiatedAction, isConfirmed) <==> isAppInitiatedAction
    ensures Buttons(isAppInitiatedAction, isConfirmed)[0] == SaveButton(!isConfirmed)
    ensures forall i :: 0 < i < |Buttons(isAppInitiatedAction, isConfirmed)| ==> Buttons(isAppInitiatedAction, isConfirmed)[i] == CancelButton
  {
  }

  /** `const [isConfirmed, setIsConfirmed] = useState(false)` with the checkbox's onChange. */
  class ConfirmationCheckbox {
    var isConfirmed: bool

    constructor ()
      ensures !isConfirmed
      ensures Buttons(false, isConfirmed) == [SaveButton(true)]
    {
      isConfirmed := false;
    }

    /** `setIsConfirmed(event.target.checked)` */
    method OnChange(checked: bool)
      modifies this
      ensures isConfirmed == checked
    {
      isConfirmed := checked;
    }
  }
}
