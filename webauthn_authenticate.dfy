/**
  The passkey sign-in page (src/login/pages/WebauthnAuthenticate.tsx): the
  icon chosen for each authenticator from its transports, the transport
  caption, and which parts of the authenticator list are shown. The
  WebAuthn ceremony itself is run by a foreign script and is not modelled.
 */
module WebauthnAuthenticate {
  import opened Js

  /** A display name as the server gives it: a plain string, or a message key for `advancedMsg`. */
  datatype DisplayName = Plain(text: string) | MessageKey(key: string)

  /**
    What `advancedMsg` returns for a key: a string, or a rendered node; a
    node's `text` is what it shows when it is rendered as an element.
   */
  datatype Resolved = Str(s: string) | Node(text: string)

  datatype Icon = Smartphone | Usb | TapAndPlay | Bluetooth | LaptopMac | Key

  datatype Authenticator = Authenticator(
    credentialId: string,
    displayLabel: DisplayName,                        // `label`
    displayNameProperties: Option<seq<DisplayName>>,  // `transports.displayNameProperties`
    createdAt: string)

  datatype Context = Context(
    authenticators: Option<seq<Authenticator>>,
    shouldDisplayAuthenticators: bool,
    registrationAllowed: bool,
    registrationDisabled: bool)

  /** `labelStr` in the icon loop: a non-string translation counts as `""`. */
  function LabelStr(t: DisplayName, advancedMsg: string -> Resolved): string {
    match t
    case Plain(s) => s
    case MessageKey(k) => (match advancedMsg(k) case Str(s) => s case Node(_) => "")
  }

  /** The icon one lower-cased transport label selects, by keyword priority. */
  function KeywordIcon(kind: string): Option<Icon> {
    if Includes(kind, "internal") then Some(Smartphone)
    else if Includes(kind, "usb") then Some(Usb)
    else if Includes(kind, "nfc") then Some(TapAndPlay)
    else if Includes(kind, "ble") then Some(Bluetooth)
    else if Includes(kind, "platform") then Some(LaptopMac)
    else None
  }

  function TransportIcon(t: DisplayName, advancedMsg: string -> Resolved): Option<Icon> {
    KeywordIcon(ToLower(LabelStr(t, advancedMsg)))
  }

  /** The icon decided by the transports from position `i` on: the first that matches, else the key. */
  function IconFrom(transports: seq<DisplayName>, advancedMsg: string -> Resolved, i: nat): Icon
    decreases |transports| - i
  {
    if i >= |transports| then Key
    else match TransportIcon(transports[i], advancedMsg)
      case Some(icon) => icon
      case None => IconFrom(transports, advancedMsg, i + 1)
  }

  /** `getAuthenticatorIcon`: a scan over the transports that returns at the first keyword hit. */
  method GetAuthenticatorIcon(authenticator: Authenticator, advancedMsg: string -> Resolved) returns (icon: Icon)
    ensures icon == IconFrom(authenticator.displayNameProperties.GetOr([]), advancedMsg, 0)
  {
    var transports := authenticator.displayNameProperties.GetOr([]);
    for i := 0 to |transports|
      invariant IconFrom(transports, advancedMsg, i) == IconFrom(transports, advancedMsg, 0)
    {
      var t := transports[i];
      var labelStr: string;
      if t.Plain? {
        labelStr := t.text;
      } else {
        var advanced := advancedMsg(t.key);
        labelStr := if advanced.Str? then advanced.s else "";
      }
      var kind := ToLower(labelStr);
      if Includes(kind, "internal") { return Smartphone; }
      if Includes(kind, "usb") { return Usb; }
      if Includes(kind, "nfc") { return TapAndPlay; }
      if Includes(kind, "ble") { return Bluetooth; }
      if Includes(kind, "platform") { return LaptopMac; }
    }
    return Key;
  }

  /** The first transport, in list order, whose label has a keyword decides the icon. */
  lemma {:induction false} FirstMatchDecides(transports: seq<DisplayName>, advancedMsg: string -> Resolved, i: nat, j: nat)
    requires j <= i < |transports|
    requires TransportIcon(transports[i], advancedMsg).Some?
    requires forall k :: j <= k < i ==> TransportIcon(transports[k], advancedMsg).None?
    ensures IconFrom(transports, advancedMsg, j) == TransportIcon(transports[i], advancedMsg).value
    decreases i - j
  {
    if j < i {
      FirstMatchDecides(transports, advancedMsg, i, j + 1);
    }
  }

  /** With no transport whose label has a keyword (in particular with none at all), the icon is the key. */
  lemma {:induction false} NoMatchIsKey(transports: seq<DisplayName>, advancedMsg: string -> Resolved, j: nat)
    requires forall k :: j <= k < |transports| ==> TransportIcon(transports[k], advancedMsg).None?
    ensures IconFrom(transports, advancedMsg, j) == Key
    decreases |transports| - j
  {
    if j < |transports| {
      NoMatchIsKey(transports, advancedMsg, j + 1);
    }
  }

  /**
    Within one label the keywords are tried as internal, usb, nfc, ble,
    platform; a label without any of them selects nothing.
   */
  lemma KeywordPriority(kind: string)
    ensures Includes(kind, "internal") ==> KeywordIcon(kind) == Some(Smartphone)
    ensures KeywordIcon(kind) == Some(Usb) <==> !Includes(kind, "internal") && Includes(kind, "usb")
    ensures KeywordIcon(kind) == Some(TapAndPlay) <==> !Includes(kind, "internal") && !Includes(kind, "usb") && Includes(kind, "nfc")
    ensures KeywordIcon(kind) == Some(Bluetooth) <==>
      !Includes(kind, "internal") && !Includes(kind, "usb") && !Includes(kind, "nfc") && Includes(kind, "ble")
    ensures KeywordIcon(kind) == Some(LaptopMac) <==>
      !Includes(kind, "internal") && !Includes(kind, "usb") && !Includes(kind, "nfc") && !Includes(kind, "ble")
      && Includes(kind, "platform")
  {
  }

  /** The empty label of a non-string translation contains no keyword. */
  lemma NonStringTranslationMatchesNothing(key: string, advancedMsg: string -> Resolved)
    requires advancedMsg(key).Node?
    ensures TransportIcon(MessageKey(key), advancedMsg) == None
  {
    assert ToLower("") == "";
  }

  /** The card's label as rendered: the string, or the translation, a node showing its text. */
  function LabelText(t: DisplayName, advancedMsg: string -> Resolved): string {
    match t
    case Plain(s) => s
    case MessageKey(k) => (match advancedMsg(k) case Str(s) => s case Node(text) => text)
  }

  /** What `String(value)` gives for a rendered node, an object: `"[object Object]"`. */
  const ObjectString := "[object Object]"

  /**
    A transport's entry in the caption: the `map` yields the label or its
    translation, and `join` turns a node into the object string.
   */
  function CaptionText(t: DisplayName, advancedMsg: string -> Resolved): string {
    match t
    case Plain(s) => s
    case MessageKey(k) => (match advancedMsg(k) case Str(s) => s case Node(_) => ObjectString)
  }

  /**
    A translation that is a string reads the same in the label and in the
    caption; one that is a node shows its text as the label but the object
    string in the caption, whatever that text is.
   */
  lemma NodeInCaption(key: string, advancedMsg: string -> Resolved)
    ensures advancedMsg(key).Str? ==> CaptionText(MessageKey(key), advancedMsg) == LabelText(MessageKey(key), advancedMsg) == advancedMsg(key).s
    ensures advancedMsg(key).Node? ==> LabelText(MessageKey(key), advancedMsg) == advancedMsg(key).text
    ensures advancedMsg(key).Node? ==> CaptionText(MessageKey(key), advancedMsg) == "[object Object]"
  {
  }

  function CaptionTexts(transports: seq<DisplayName>, advancedMsg: string -> Resolved): seq<string> {
    seq(|transports|, i requires 0 <= i < |transports| => CaptionText(transports[i], advancedMsg))
  }

  /** The transport caption: the labels joined with ", ", shown only for a non-empty list. */
  function TransportCaption(authenticator: Authenticator, advancedMsg: string -> Resolved): Option<string> {
    var transports := authenticator.displayNameProperties.GetOr([]);
    if |transports| > 0 then Some(Join(CaptionTexts(transports, advancedMsg), ", ")) else None
  }

  /** Each further transport adds ", " and its label at the end of the caption. */
  lemma CaptionGrows(authenticator: Authenticator, t: DisplayName, advancedMsg: string -> Resolved)
    requires authenticator.displayNameProperties.GetOr([]) != []
    ensures var transports := authenticator.displayNameProperties.value;
      TransportCaption(authenticator.(displayNameProperties := Some(transports + [t])), advancedMsg)
        == Some(TransportCaption(authenticator, advancedMsg).value + ", " + CaptionText(t, advancedMsg))
  {
    var transports := authenticator.displayNameProperties.value;
    assert CaptionTexts(transports + [t], advancedMsg) == CaptionTexts(transports, advancedMsg) + [CaptionText(t, advancedMsg)];
    JoinAppend(CaptionTexts(transports, advancedMsg), ", ", CaptionText(t, advancedMsg));
  }

  /** A lone transport's caption is its label; no transports, or none given, means no caption. */
  lemma CaptionEnds(authenticator: Authenticator, advancedMsg: string -> Resolved)
    ensures authenticator.displayNameProperties.GetOr([]) == [] ==> TransportCaption(authenticator, advancedMsg).None?
    ensures authenticator.displayNameProperties.Some? && |authenticator.displayNameProperties.value| == 1 ==>
      TransportCaption(authenticator, advancedMsg) == Some(CaptionText(authenticator.displayNameProperties.value[0], advancedMsg))
  {
  }

  /** One card of the authenticator list. */
  datatype Card = Card(icon: Icon, labelText: string, caption: Option<string>)

  /** What the page shows of the authenticators. */
  datatype View = View(
    authnUseChk: seq<string>,    // values of the hidden `authn_use_chk` inputs
    showsHeading: bool,          // "available authenticators" heading
    cards: seq<Card>,
    displayInfo: bool)           // the registration link in the footer

  function Render(ctx: Context, advancedMsg: string -> Resolved): View {
    var list := ctx.authenticators.GetOr([]);
    View(
      if ctx.authenticators.Some? then seq(|list|, i requires 0 <= i < |list| => list[i].credentialId) else [],
      ctx.authenticators.Some? && ctx.shouldDisplayAuthenticators && |list| > 1,
      if ctx.authenticators.Some? && ctx.shouldDisplayAuthenticators then
        seq(|list|, i requires 0 <= i < |list| =>
          Card(IconFrom(list[i].displayNameProperties.GetOr([]), advancedMsg, 0),
               LabelText(list[i].displayLabel, advancedMsg), TransportCaption(list[i], advancedMsg)))
      else [],
      ctx.registrationAllowed && !ctx.registrationDisabled)
  }

  /**
    There is one hidden `authn_use_chk` input per authenticator, in order,
    valued by its credential id, whether or not the list is displayed.
   */
  lemma HiddenInputsPerAuthenticator(ctx: Context, advancedMsg: string -> Resolved, display: bool)
    ensures Render(ctx.(shouldDisplayAuthenticators := display), advancedMsg).authnUseChk == Render(ctx, advancedMsg).authnUseChk
    ensures |Render(ctx, advancedMsg).authnUseChk| == |ctx.authenticators.GetOr([])|
    ensures forall i :: 0 <= i < |ctx.authenticators.GetOr([])| ==>
      Render(ctx, advancedMsg).authnUseChk[i] == ctx.authenticators.value[i].credentialId
  {
  }

  /**
    The heading needs the list displayed and more than one authenticator.
    When the list is displayed, card i shows authenticator i's icon, label
    and transport caption; otherwise there are no cards.
   */
  lemma ListVisibility(ctx: Context, advancedMsg: string -> Resolved)
    ensures Render(ctx, advancedMsg).showsHeading <==>
      ctx.shouldDisplayAuthenticators && ctx.authenticators.Some? && |ctx.authenticators.value| > 1
    ensures Render(ctx, advancedMsg).showsHeading ==> |Render(ctx, advancedMsg).cards| > 1
    ensures !ctx.shouldDisplayAuthenticators ==> Render(ctx, advancedMsg).cards == []
    ensures ctx.shouldDisplayAuthenticators ==> |Render(ctx, advancedMsg).cards| == |ctx.authenticators.GetOr([])|
    ensures ctx.shouldDisplayAuthenticators && ctx.authenticators.Some? ==>
      forall i :: 0 <= i < |ctx.authenticators.value| ==>
        Render(ctx, advancedMsg).cards[i] ==
          Card(IconFrom(ctx.authenticators.value[i].displayNameProperties.GetOr([]), advancedMsg, 0),
               LabelText(ctx.authenticators.value[i].displayLabel, advancedMsg),
               TransportCaption(ctx.authenticators.value[i], advancedMsg))
  {
  }
}
