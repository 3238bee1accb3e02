/**
  Two pieces of per-component state that several pages keep with
  `useState`: the show/hide switch of a password field, and the latch that
  disables a submit button once its form has been submitted.
 */
module UiState {

  /** The `type` of a password field: shown as text, or masked. */
  function PasswordFieldType(showPassword: bool): (t: string)
    ensures t == "text" <==> showPassword
    ensures t == "password" <==> !showPassword
  {
    if showPassword then "text" else "password"
  }

  /** `const [showPassword, setShowPassword] = useState(false)` with the icon button's onClick. */
  class PasswordToggle {
    var showPassword: bool

    constructor ()
      ensures !showPassword
      ensures FieldType() == "password"
    {
      showPassword := false;
    }

    /** `type={showPassword ? "text" : "password"}` on the password field. */
    function FieldType(): (t: string)
      reads this
      ensures t == "text" <==> showPassword
      ensures t == "password" <==> !showPassword
    {
      PasswordFieldType(showPassword)
    }

    /** `setShowPassword(!showPassword)`: every click flips the field between masked and shown. */
    method OnClick()
      modifies this
      ensures showPassword == !old(showPassword)
      ensures FieldType() != old(FieldType())
    {
      showPassword := !showPassword;
    }
  }

  /**
    A submit button's disabled flag: `useState(false)`, set to true by the
    form's onSubmit. Nothing sets it back, so once disabled it stays so.
   */
  class SubmitLatch {
    var disabled: bool

    constructor ()
      ensures !disabled
    {
      disabled := false;
    }

    method OnSubmit()
      modifies this
      ensures disabled
    {
      disabled := true;
    }
  }
}
