/**
  The username-and-password login page (src/login/pages/Login.tsx): the
  username field's label, the social-provider section, what the page asks
  of the frame, the parts of the form that are shown, and the conditional
  passkey section. Its two pieces of state are `UiState.SubmitLatch`
  (`isLoginButtonDisabled`) and `UiState.PasswordToggle` (`showPassword`).
 */
module Login {
  import opened Js
  import opened I18n
  import UiState
  import Template

  datatype Realm = Realm(
    password: bool,
    registrationAllowed: bool,
    loginWithEmailAllowed: bool,
    registrationEmailAsUsername: bool,
    rememberMe: bool,
    resetPasswordAllowed: bool)

  datatype Provider = Provider(alias: string, loginUrl: string, displayName: string)

  datatype Context = Context(
    realm: Realm,
    providers: Option<seq<Provider>>,          // `social?.providers`
    usernameHidden: bool,
    registrationDisabled: bool,
    credentialFieldErrorExists: bool,          // `messagesPerField.existsError("username", "password")`
    enableWebAuthnConditionalUI: bool,
    authenticatorIds: Option<seq<string>>)     // credential ids of `authenticators.authenticators`

  /** The label of the username field. */
  function UsernameLabel(realm: Realm): (t: Text)
    ensures !realm.loginWithEmailAllowed ==> t == Msg("username")
    ensures realm.loginWithEmailAllowed && !realm.registrationEmailAsUsername ==> t == Msg("usernameOrEmail")
    ensures realm.loginWithEmailAllowed && realm.registrationEmailAsUsername ==> t == Msg("email")
  {
    if !realm.loginWithEmailAllowed then Msg("username")
    else if !realm.registrationEmailAsUsername then Msg("usernameOrEmail")
    else Msg("email")
  }

  /** The social-provider section: its number of grid columns and one button per provider. */
  datatype SocialSection = SocialSection(columns: nat, buttonIds: seq<string>, buttonHrefs: seq<string>)

  function SocialSectionOf(ctx: Context): (r: Option<SocialSection>)
    ensures r.Some? <==> ctx.realm.password && ctx.providers.Some? && |ctx.providers.value| != 0
    ensures r.Some? ==> (r.value.columns == 2 <==> |ctx.providers.value| > 3)
    ensures r.Some? ==> (r.value.columns == 1 <==> |ctx.providers.value| <= 3)
    ensures r.Some? ==> |r.value.buttonIds| == |ctx.providers.value| == |r.value.buttonHrefs|
    ensures r.Some? ==> forall i :: 0 <= i < |ctx.providers.value| ==>
      r.value.buttonIds[i] == "social-" + ctx.providers.value[i].alias && r.value.buttonHrefs[i] == ctx.providers.value[i].loginUrl
  {
    if ctx.realm.password && ctx.providers.Some? && |ctx.providers.value| != 0 then
      var ps := ctx.providers.value;
      Some(SocialSection(
        if |ps| > 3 then 2 else 1,
        seq(|ps|, i requires 0 <= i < |ps| => "social-" + ps[i].alias),
        seq(|ps|, i requires 0 <= i < |ps| => ps[i].loginUrl)))
    else None
  }

  /** What the page passes to the frame. */
  function FrameDisplayMessage(ctx: Context): bool {
    !ctx.credentialFieldErrorExists
  }

  function FrameDisplayInfo(ctx: Context): bool {
    ctx.realm.password && ctx.realm.registrationAllowed && !ctx.registrationDisabled
  }

  /**
    A field error on username or password replaces the global alert; the
    registration footer needs password login, registration allowed and not
    disabled.
   */
  lemma FrameRules(ctx: Context, props: Template.Props, frame: Template.Context)
    requires props.displayMessage == Some(FrameDisplayMessage(ctx)) && props.displayInfo == Some(FrameDisplayInfo(ctx))
    ensures ctx.credentialFieldErrorExists ==> Template.AlertOf(props, frame).None?
    ensures !ctx.credentialFieldErrorExists && frame.message.Some? && !frame.isAppInitiatedAction ==>
      Template.AlertOf(props, frame) == frame.message
    ensures Template.FooterOf(props).Some? ==> ctx.realm.password && ctx.realm.registrationAllowed && !ctx.registrationDisabled
    ensures FrameDisplayInfo(ctx) ==> Template.FooterOf(props) == props.infoNode
  {
  }

  /** The login form, shown only with password login. */
  datatype Form = Form(
    usernameLabel: Option<Text>,    // the username field, when not hidden
    usernameError: bool,            // the error under the username field
    passwordError: bool,            // the error under the password field
    passwordType: string,
    rememberMe: bool,
    forgotPasswordLink: bool,
    submitDisabled: bool)

  function FormOf(ctx: Context, isLoginButtonDisabled: bool, showPassword: bool): (f: Option<Form>)
    ensures f.Some? <==> ctx.realm.password
    ensures f.Some? ==> (f.value.usernameLabel.Some? <==> !ctx.usernameHidden)
    ensures f.Some? && f.value.usernameLabel.Some? ==> f.value.usernameLabel.value == UsernameLabel(ctx.realm)
    ensures f.Some? ==> !(f.value.usernameError && f.value.passwordError)
    ensures f.Some? ==> (f.value.usernameError || f.value.passwordError <==> ctx.credentialFieldErrorExists)
    ensures f.Some? ==> (f.value.usernameError <==> !ctx.usernameHidden && ctx.credentialFieldErrorExists)
    ensures f.Some? ==> (f.value.passwordError <==> ctx.usernameHidden && ctx.credentialFieldErrorExists)
    ensures f.Some? ==> (f.value.rememberMe <==> ctx.realm.rememberMe && !ctx.usernameHidden)
    ensures f.Some? ==> f.value.forgotPasswordLink == ctx.realm.resetPasswordAllowed
    ensures f.Some? ==> f.value.submitDisabled == isLoginButtonDisabled
    ensures f.Some? ==> (f.value.passwordType == "text" <==> showPassword)
  {
    if !ctx.realm.password then None
    else Some(Form(
      if ctx.usernameHidden then None else Some(UsernameLabel(ctx.realm)),
      !ctx.usernameHidden && ctx.credentialFieldErrorExists,
      ctx.usernameHidden && ctx.credentialFieldErrorExists,
      UiState.PasswordFieldType(showPassword),
      ctx.realm.rememberMe && !ctx.usernameHidden,
      ctx.realm.resetPasswordAllowed,
      isLoginButtonDisabled))
  }

  /**
    The conditional passkey section, only when conditional WebAuthn UI is
    enabled: the values of its hidden `authn_use_chk` inputs, one per
    authenticator in order, none without authenticators.
   */
  function PasskeySection(ctx: Context): (r: Option<seq<string>>)
    ensures r.Some? <==> ctx.enableWebAuthnConditionalUI
    ensures r.Some? ==> r.value == ctx.authenticatorIds.GetOr([])
  {
    if !ctx.enableWebAuthnConditionalUI then None
    else if ctx.authenticatorIds.Some? && |ctx.authenticatorIds.value| != 0 then Some(ctx.authenticatorIds.value)
    else Some([])
  }
}
