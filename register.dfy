/**
  The registration page (src/login/pages/Register.tsx): the header, which
  reCAPTCHA element and which submit button are shown, the terms checkbox,
  and the state that enables the normal register button.
 */
module Register {
  import opened Js
  import opened I18n
  import Template

  datatype Context = Context(
    messageHeader: Option<string>,
    globalMessageExists: bool,        // `messagesPerField.exists("global")`
    recaptchaRequired: bool,          // `undefined` reads as false
    recaptchaVisible: bool,           // `undefined` reads as false
    recaptchaAction: Option<string>,
    termsAcceptanceRequired: bool)    // `undefined` reads as false

  /** The header: the message header's translation when it is a non-empty string, else `registerTitle`. */
  function Header(ctx: Context): (t: Text)
    ensures Truthy(ctx.messageHeader) ==> t == Advanced(ctx.messageHeader.value)
    ensures !Truthy(ctx.messageHeader) ==> t == Msg("registerTitle")
  {
    if Truthy(ctx.messageHeader) then Advanced(ctx.messageHeader.value) else Msg("registerTitle")
  }

  /** The page asks the frame to show its alert exactly when there is a global message. */
  lemma AlertFollowsGlobalMessage(ctx: Context, props: Template.Props, frame: Template.Context)
    requires props.displayMessage == Some(ctx.globalMessageExists)
    ensures Template.AlertOf(props, frame).Some? ==> ctx.globalMessageExists
    ensures ctx.globalMessageExists && frame.message.Some? && !frame.isAppInitiatedAction ==>
      Template.AlertOf(props, frame) == frame.message
  {
  }

  /** The visible reCAPTCHA widget. */
  predicate ShowsRecaptchaWidget(ctx: Context) {
    ctx.recaptchaRequired && (ctx.recaptchaVisible || ctx.recaptchaAction.None?)
  }

  datatype SubmitButton =
    | InvisibleRecaptchaButton(siteAction: string)   // submits through the `onSubmitRecaptcha` callback
    | RegisterButton(disabled: bool)

  /** The submit button for the current state of the two flags. */
  function SubmitButtonOf(ctx: Context, isFormSubmittable: bool, areTermsAccepted: bool): (b: SubmitButton)
    ensures b.InvisibleRecaptchaButton? <==> ctx.recaptchaRequired && !ctx.recaptchaVisible && ctx.recaptchaAction.Some?
    ensures b.InvisibleRecaptchaButton? ==> b.siteAction == ctx.recaptchaAction.value
    ensures b.RegisterButton? ==> (b.disabled <==> !isFormSubmittable || (ctx.termsAcceptanceRequired && !areTermsAccepted))
  {
    if ctx.recaptchaRequired && !ctx.recaptchaVisible && ctx.recaptchaAction.Some? then
      InvisibleRecaptchaButton(ctx.recaptchaAction.value)
    else
      RegisterButton(!isFormSubmittable || (ctx.termsAcceptanceRequired && !areTermsAccepted))
  }

  /**
    Under `recaptchaRequired` exactly one of the widget and the invisible
    button is used; without it there is neither, and the normal button is.
   */
  lemma RecaptchaBranches(ctx: Context, isFormSubmittable: bool, areTermsAccepted: bool)
    ensures ctx.recaptchaRequired ==>
      (ShowsRecaptchaWidget(ctx) <==> !SubmitButtonOf(ctx, isFormSubmittable, areTermsAccepted).InvisibleRecaptchaButton?)
    ensures !ctx.recaptchaRequired ==>
      !ShowsRecaptchaWidget(ctx) && SubmitButtonOf(ctx, isFormSubmittable, areTermsAccepted).RegisterButton?
  {
  }

  /** Terms that do not have to be accepted never hold the button back. */
  lemma TermsOnlyGateWhenRequired(ctx: Context, isFormSubmittable: bool, areTermsAccepted: bool)
    requires !ctx.termsAcceptanceRequired
    ensures SubmitButtonOf(ctx, isFormSubmittable, areTermsAccepted) == SubmitButtonOf(ctx, isFormSubmittable, !areTermsAccepted)
  {
  }

  /** The terms checkbox, rendered only when terms acceptance is required. */
  function TermsCheckbox(ctx: Context, areTermsAccepted: bool): (checked: Option<bool>)
    ensures checked.Some? <==> ctx.termsAcceptanceRequired
    ensures checked.Some? ==> checked.value == areTermsAccepted
  {
    if ctx.termsAcceptanceRequired then Some(areTermsAccepted) else None
  }

  /** The title of the terms viewer: the `termsTitle` translation, or "Terms of Service" when it is empty. */
  function TermsTitle(termsTitle: string): (t: string)
    ensures termsTitle != "" ==> t == termsTitle
    ensures termsTitle == "" ==> t == "Terms of Service"
    ensures t != ""
  {
    if termsTitle != "" then termsTitle else "Terms of Service"
  }

  /** The page state: `isFormSubmittable` and `areTermsAccepted`, both `useState(false)`. */
  class RegisterState {
    const ctx: Context
    var isFormSubmittable: bool
    var areTermsAccepted: bool

    constructor (ctx: Context)
      ensures this.ctx == ctx
      ensures !isFormSubmittable && !areTermsAccepted
    {
      this.ctx := ctx;
      isFormSubmittable := false;
      areTermsAccepted := false;
    }

    /** The register button the page renders from the two state cells. */
    function Button(): (b: SubmitButton)
      reads this
      ensures b.RegisterButton? ==> (!b.disabled <==> isFormSubmittable && (!ctx.termsAcceptanceRequired || areTermsAccepted))
    {
      SubmitButtonOf(ctx, isFormSubmittable, areTermsAccepted)
    }

    /** `onIsFormSubmittableValueChange`, called by the profile form fields. */
    method SetFormSubmittable(value: bool)
      modifies this
      ensures isFormSubmittable == value && areTermsAccepted == old(areTermsAccepted)
    {
      isFormSubmittable := value;
    }

    /** The terms checkbox's onChange. */
    method SetTermsAccepted(checked: bool)
      modifies this
      ensures areTermsAccepted == checked && isFormSubmittable == old(isFormSubmittable)
    {
      areTermsAccepted := checked;
    }
  }

  /** A fresh page's normal register button is disabled, since nothing is submittable yet. */
  lemma StartsDisabled(ctx: Context)
    ensures SubmitButtonOf(ctx, false, false).RegisterButton? ==> SubmitButtonOf(ctx, false, false).disabled
  {
  }

  /** The normal button is enabled exactly when the form is submittable and the terms, if required, are accepted. */
  lemma EnabledExactly(ctx: Context, isFormSubmittable: bool, areTermsAccepted: bool)
    requires SubmitButtonOf(ctx, isFormSubmittable, areTermsAccepted).RegisterButton?
    ensures !SubmitButtonOf(ctx, isFormSubmittable, areTermsAccepted).disabled <==>
      isFormSubmittable && (!ctx.termsAcceptanceRequired || areTermsAccepted)
  {
  }
}
