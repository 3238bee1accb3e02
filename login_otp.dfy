/**
  The one-time-code page (src/login/pages/LoginOtp.tsx): the radio chooser
  between the user's OTP credentials, the code field's error, and what the
  page asks of the frame. Its submit latch (`isSubmitting`) is
  `UiState.SubmitLatch`.
 */
module LoginOtp {
  import opened Js
  import Template

  datatype OtpCredential = OtpCredential(id: string, userLabel: string)

  datatype Context = Context(
    userOtpCredentials: seq<OtpCredential>,
    selectedCredentialId: Option<string>,   // `otpLogin.selectedCredentialId`
    totpErrorExists: bool)                  // `messagesPerField.existsError("totp")`

  /** The chooser is there only when there is more than one credential to choose from. */
  predicate ChooserShown(ctx: Context) {
    |ctx.userOtpCredentials| > 1
  }

  /** A radio is checked when the selection is its credential's id. */
  predicate Checked(selection: Option<string>, credential: OtpCredential) {
    selection == Some(credential.id)
  }

  /** The checked state of the chooser's radios, in credential order; no radios without a chooser. */
  function Radios(ctx: Context, selection: Option<string>): (checked: seq<bool>)
    ensures ChooserShown(ctx) ==> |checked| == |ctx.userOtpCredentials|
    ensures !ChooserShown(ctx) ==> checked == []
    ensures ChooserShown(ctx) ==> forall i :: 0 <= i < |checked| ==>
      (checked[i] <==> selection.Some? && selection.value == ctx.userOtpCredentials[i].id)
  {
    if !ChooserShown(ctx) then []
    else seq(|ctx.userOtpCredentials|, i requires 0 <= i < |ctx.userOtpCredentials| => Checked(selection, ctx.userOtpCredentials[i]))
  }

  /** With distinct credential ids, at most one radio is checked, and one is when the selection names a credential. */
  lemma AtMostOneChecked(ctx: Context, selection: Option<string>)
    requires forall a, b :: 0 <= a < b < |ctx.userOtpCredentials| ==> ctx.userOtpCredentials[a].id != ctx.userOtpCredentials[b].id
    ensures forall i, j :: 0 <= i < j < |Radios(ctx, selection)| ==> !(Radios(ctx, selection)[i] && Radios(ctx, selection)[j])
    ensures ChooserShown(ctx) && (exists k :: 0 <= k < |ctx.userOtpCredentials| && selection == Some(ctx.userOtpCredentials[k].id)) ==>
      true in Radios(ctx, selection)
  {
    if ChooserShown(ctx) && exists k :: 0 <= k < |ctx.userOtpCredentials| && selection == Some(ctx.userOtpCredentials[k].id) {
      var k :| 0 <= k < |ctx.userOtpCredentials| && selection == Some(ctx.userOtpCredentials[k].id);
      assert Radios(ctx, selection)[k];
    }
  }

  /** The error span under the code field. */
  function ErrorSpanShown(ctx: Context): bool {
    ctx.totpErrorExists
  }

  /** What the page passes to the frame as `displayMessage`. */
  function FrameDisplayMessage(ctx: Context): bool {
    !ctx.totpErrorExists
  }

  /** Exactly one of the error span and the frame's message display is on; the span and the alert never show together. */
  lemma ErrorOrAlert(ctx: Context, props: Template.Props, frame: Template.Context)
    requires props.displayMessage == Some(FrameDisplayMessage(ctx))
    ensures ErrorSpanShown(ctx) ==> Template.AlertOf(props, frame).None?
    ensures !ErrorSpanShown(ctx) && frame.message.Some? && !frame.isAppInitiatedAction ==>
      Template.AlertOf(props, frame) == frame.message
    ensures ErrorSpanShown(ctx) != FrameDisplayMessage(ctx)
  {
  }

  /** `const [selectedCredentialId, setSelectedCredentialId] = useState(otpLogin.selectedCredentialId)`. */
  class CredentialSelection {
    var selectedCredentialId: Option<string>

    constructor (ctx: Context)
      ensures selectedCredentialId == ctx.selectedCredentialId
    {
      selectedCredentialId := ctx.selectedCredentialId;
    }

    /** A radio's onChange: the selection becomes that radio's value, its credential's id. */
    method OnChange(credential: OtpCredential)
      modifies this
      ensures selectedCredentialId == Some(credential.id)
      ensures Checked(selectedCredentialId, credential)
    {
      selectedCredentialId := Some(credential.id);
    }
  }

  /** After choosing credential `k` (ids distinct), the radios show exactly `k` checked. */
  lemma ChoosingChecksOnlyThatOne(ctx: Context, k: nat)
    requires ChooserShown(ctx) && k < |ctx.userOtpCredentials|
    requires forall a, b :: 0 <= a < b < |ctx.userOtpCredentials| ==> ctx.userOtpCredentials[a].id != ctx.userOtpCredentials[b].id
    ensures forall i :: 0 <= i < |ctx.userOtpCredentials| ==>
      (Radios(ctx, Some(ctx.userOtpCredentials[k].id))[i] <==> i == k)
  {
    forall i | 0 <= i < |ctx.userOtpCredentials|
      ensures Radios(ctx, Some(ctx.userOtpCredentials[k].id))[i] <==> i == k
    {
      if i < k {
        assert ctx.userOtpCredentials[i].id != ctx.userOtpCredentials[k].id;
      } else if k < i {
        assert ctx.userOtpCredentials[k].id != ctx.userOtpCredentials[i].id;
      }
    }
  }
}
