# Keycloak login theme: verified model of the page logic

This project is a Dafny model of the logic inside a Keycloak login theme.
The theme is written in React with TypeScript, on top of keycloakify. Each
page renders a read-only context object sent by the Keycloak server. The
logic worth modelling is the small amount of computation and gating inside
the components:

- the user-profile form's value editing (text input, remove and add
  buttons, multiselect checkboxes);
- its widget choice, input type, option list and option labels;
- where it inserts group headers;
- the recovery-code list;
- the passkey page's icon choice and transport caption;
- the information page's text and link;
- the front-channel logout counter and its redirect;
- the page frame's header, alert, try-another-way form, footer and title;
- the registration, login and one-time-code pages' predicates and their
  `useState` cells.

The modules follow the source files. Two shared modules support them:

- `Js` defines `Option` for `undefined`, JavaScript truthiness, and the
  string built-ins the pages call (`slice`, `startsWith`, `includes`,
  `toLowerCase`, `trim`, `join`).
- `I18n` stands for what `msg`/`advancedMsg` return: a message key, not
  its translation.

A component's `useState` cell is a class whose methods are the event
handlers that update it. The shared ones are `UiState.PasswordToggle` and
`UiState.SubmitLatch`. A page's loop or statement sequence is a method
proved against a specification function. Everything else is functions and
lemmas.

## Model

| member | source | states |
|---|---|---|
| UserProfileFormFields.OnInputChange | src/login/UserProfileFormFields.tsx:340-351 | Typing into entry `fieldIndex` of a list value only changes that position; out of range, nothing changes; without an index, the value becomes the typed text |
| UserProfileFormFields.UpdatedValues | src/login/UserProfileFormFields.tsx:343-348 | No contract of its own; specified by OnInputChange, whose ensures give the list with only entry `fieldIndex` replaced |
| UserProfileFormFields.RemovedValues | src/login/UserProfileFormFields.tsx:413 | The remove button drops exactly the entry at `fieldIndex` and keeps the rest in order; out of range, the list is unchanged |
| UserProfileFormFields.AddedValues | src/login/UserProfileFormFields.tsx:431 | The add button yields the original list followed by a single `""` |
| UserProfileFormFields.AddThenRemoveRestores | src/login/UserProfileFormFields.tsx:413-431 | Removing the entry the add button created gives back the previous list |
| UserProfileFormFields.IndexOf | src/login/UserProfileFormFields.tsx:523 | `indexOf` is -1 exactly when the option is absent; otherwise it is the first position holding the option |
| UserProfileFormFields.SpliceOne | src/login/UserProfileFormFields.tsx:523 | `splice(start, 1)` removes the entry at an in-range start, and removes the last entry for -1 |
| UserProfileFormFields.UncheckSelected | src/login/UserProfileFormFields.tsx:523 | Unticking a selected option removes its first occurrence and takes exactly one copy of it out of the multiset |
| UserProfileFormFields.UncheckUnselected | src/login/UserProfileFormFields.tsx:523 | Unticking an option that is not in the list drops the last entry, because `indexOf` returns -1 |
| UserProfileFormFields.IsChecked | src/login/UserProfileFormFields.tsx:509 | No contract of its own; specified by OnCheckboxChange, whose ensures state the checked state after a tick or an untick |
| UserProfileFormFields.OnCheckboxChange | src/login/UserProfileFormFields.tsx:514-530 | Ticking appends the option; unticking removes its first occurrence, or the last entry when it is absent; on a single value the result is the option or `""`; ticking leaves the box checked, and unticking clears it when the option occurs at most once (a second copy keeps it checked) |
| UserProfileFormFields.CheckThenUncheckRestores | src/login/UserProfileFormFields.tsx:518-526 | Ticking then unticking an unselected option restores the list |
| UserProfileFormFields.CheckThenUncheckMovesSelected | src/login/UserProfileFormFields.tsx:518-526 | Ticking then unticking an already selected option keeps exactly the same entries (as a multiset) and moves that option to the end |
| UserProfileFormFields.InputType | src/login/UserProfileFormFields.tsx:299-305 | `html5-X` gives `X`, a missing annotation gives `"text"`, any other annotation is kept unchanged |
| UserProfileFormFields.InputTypeStripsPrefix | src/login/UserProfileFormFields.tsx:301-302 | `html5-` followed by any `x` gives back exactly `x` |
| UserProfileFormFields.SelectOptions | src/login/UserProfileFormFields.tsx:449-471 | The list of the validator named by `inputOptionsFromValidation` when it exists with options; in every other case, with or without the annotation, the `options` validator's list, else empty; always empty or some validator's list |
| UserProfileFormFields.SelectOptionsPrecedence | src/login/UserProfileFormFields.tsx:628-652 | An attribute without `inputOptionsFromValidation` takes the `options` validator's list, or none; a named validator with an empty list still wins and hides that fallback |
| UserProfileFormFields.NamedListGiven | src/login/UserProfileFormFields.tsx:451-465 | No contract of its own: the named validator exists and has options; used by SelectOptions |
| UserProfileFormFields.FallbackOptions | src/login/UserProfileFormFields.tsx:470 | No contract of its own: `validators.options?.options ?? []`; used by SelectOptions |
| UserProfileFormFields.InputLabel | src/login/UserProfileFormFields.tsx:675-689 | The label map entry, falling back to the option, when the map is given; otherwise `<prefix>.<option>` when a prefix is given; the option verbatim exactly when neither is given |
| UserProfileFormFields.InputFieldByType | src/login/UserProfileFormFields.tsx:188-220 | No contract of its own; specified by HiddenAttributeRendering and PlainInputDispatch |
| UserProfileFormFields.IsFormGroupHidden | src/login/UserProfileFormFields.tsx:68-72 | No contract of its own; specified by HiddenAttributeRendering and ConfirmationShownWhenAsked |
| UserProfileFormFields.HiddenAttributeRendering | src/login/UserProfileFormFields.tsx:188-193 | A `hidden` input type gives a hidden input inside a hidden form group |
| UserProfileFormFields.PlainInputDispatch | src/login/UserProfileFormFields.tsx:188-220 | Without a special input type, a list value gets one input per entry; a single value gets a password input exactly for `password` and `password-confirm` |
| UserProfileFormFields.ConfirmationShownWhenAsked | src/login/UserProfileFormFields.tsx:68-72 | When confirmation is asked for, only a hidden type hides a form group; otherwise `password-confirm` is always hidden |
| UserProfileFormFields.GroupNameRef.constructor | src/login/UserProfileFormFields.tsx:47 | The shared group-name cell starts as `""` |
| UserProfileFormFields.HeaderOf | src/login/UserProfileFormFields.tsx:131-144 | No contract of its own: the display header (or the name) and the description a group header shows; GroupLabel states when it is rendered |
| UserProfileFormFields.GroupNameOf | src/login/UserProfileFormFields.tsx:132 | No contract of its own; specified by GroupLabel and HeadersFollowRuns, which state the headers in terms of these names |
| UserProfileFormFields.GroupLabel | src/login/UserProfileFormFields.tsx:121-144 | The cell takes the attribute's group name; a header is rendered exactly when that name differs from the cell's old value and is non-empty, and it is that group's header |
| UserProfileFormFields.RenderGroupLabels | src/login/UserProfileFormFields.tsx:47-54 | The render loop with one shared cell emits, for each attribute, the header that depends only on it and the attribute before it |
| UserProfileFormFields.HeadersFollowRuns | src/login/UserProfileFormFields.tsx:131-144 | Over a list of attributes, the headers are one per maximal run of equal non-empty group names, in order |
| UiState.PasswordFieldType | src/login/UserProfileFormFields.tsx:237 | The field type is `"text"` exactly when the password is shown, and `"password"` exactly when it is not |
| UiState.PasswordToggle.constructor | src/login/pages/Login.tsx:37 | The password starts hidden, so the field type is `"password"` |
| UiState.PasswordToggle.FieldType | src/login/pages/Login.tsx:170 | The field type is `"text"` exactly when the password is shown, and `"password"` exactly when it is not |
| UiState.PasswordToggle.OnClick | src/login/pages/Login.tsx:175 | Each click flips the flag, so the field type changes |
| UiState.SubmitLatch.constructor | src/login/pages/Login.tsx:36 | The submit button starts enabled |
| UiState.SubmitLatch.OnSubmit | src/login/pages/Login.tsx:121-123 | After a submit the button is disabled; no handler enables it again (the same latch is `isSubmitting` of the one-time-code page) |
| LoginRecoveryAuthnCodeConfig.Chunks | src/login/pages/LoginRecoveryAuthnCodeConfig.tsx:64 | The three chunks concatenate to the code for any length: the first is the first four characters (the whole code when shorter), the second the next up to four, the third the rest from position 8 |
| LoginRecoveryAuthnCodeConfig.TwelveCharacterCodeSplitsEvenly | src/login/pages/LoginRecoveryAuthnCodeConfig.tsx:64 | A 12-character code splits 4-4-4 |
| LoginRecoveryAuthnCodeConfig.CodeItems | src/login/pages/LoginRecoveryAuthnCodeConfig.tsx:62-66 | One item per code, in order, numbered `i + 1`, whose text is the hyphen-separated chunks of that code |
| LoginRecoveryAuthnCodeConfig.CodeText | src/login/pages/LoginRecoveryAuthnCodeConfig.tsx:64 | No contract of its own: the chunks separated by hyphens; specified through CodeItems |
| LoginRecoveryAuthnCodeConfig.Buttons | src/login/pages/LoginRecoveryAuthnCodeConfig.tsx:142-177 | No contract of its own; specified by ButtonRules |
| LoginRecoveryAuthnCodeConfig.ButtonRules | src/login/pages/LoginRecoveryAuthnCodeConfig.tsx:142-177 | Every save button is disabled exactly when the codes are not confirmed; the cancel button is present exactly for app-initiated actions and is never gated |
| LoginRecoveryAuthnCodeConfig.ConfirmationCheckbox.constructor | src/login/pages/LoginRecoveryAuthnCodeConfig.tsx:23 | Confirmation starts false, so the save button starts disabled |
| LoginRecoveryAuthnCodeConfig.ConfirmationCheckbox.OnChange | src/login/pages/LoginRecoveryAuthnCodeConfig.tsx:121-126 | The flag follows the checkbox |
| WebauthnAuthenticate.GetAuthenticatorIcon | src/login/pages/WebauthnAuthenticate.tsx:32-55 | The loop with early returns computes the icon settled by the transports in list order; the default is the key icon |
| WebauthnAuthenticate.IconFrom | src/login/pages/WebauthnAuthenticate.tsx:35-54 | No contract of its own: the icon from the first matching transport on; specified by FirstMatchDecides and NoMatchIsKey |
| WebauthnAuthenticate.LabelStr | src/login/pages/WebauthnAuthenticate.tsx:36-43 | No contract of its own; specified by NonStringTranslationMatchesNothing |
| WebauthnAuthenticate.KeywordIcon | src/login/pages/WebauthnAuthenticate.tsx:47-51 | No contract of its own; specified by KeywordPriority |
| WebauthnAuthenticate.TransportIcon | src/login/pages/WebauthnAuthenticate.tsx:45-51 | No contract of its own: the keyword icon of the lower-cased label |
| WebauthnAuthenticate.FirstMatchDecides | src/login/pages/WebauthnAuthenticate.tsx:35-52 | The first transport in list order whose label has a keyword decides the icon |
| WebauthnAuthenticate.NoMatchIsKey | src/login/pages/WebauthnAuthenticate.tsx:54 | With no transport, or none whose label has a keyword, the icon is the key |
| WebauthnAuthenticate.KeywordPriority | src/login/pages/WebauthnAuthenticate.tsx:47-51 | Within one label the keywords rank internal, usb, nfc, ble, platform |
| WebauthnAuthenticate.NonStringTranslationMatchesNothing | src/login/pages/WebauthnAuthenticate.tsx:38-43 | A translation that is not a string becomes `""` and matches no keyword |
| WebauthnAuthenticate.CaptionGrows | src/login/pages/WebauthnAuthenticate.tsx:154-163 | Each further transport appends `", "` and its caption text to the caption |
| WebauthnAuthenticate.CaptionEnds | src/login/pages/WebauthnAuthenticate.tsx:154-163 | No caption for a missing or empty transport list; a lone transport's caption is its caption text |
| WebauthnAuthenticate.LabelText | src/login/pages/WebauthnAuthenticate.tsx:149-151 | No contract of its own: the card's label as rendered, a node showing its text; specified by NodeInCaption |
| WebauthnAuthenticate.CaptionText | src/login/pages/WebauthnAuthenticate.tsx:159-162 | No contract of its own: a caption entry, a node becoming `"[object Object]"` under `join`; specified by NodeInCaption |
| WebauthnAuthenticate.NodeInCaption | src/login/pages/WebauthnAuthenticate.tsx:149-162 | A string translation reads the same in the label and the caption; a node shows its text as the label and `"[object Object]"` in the caption |
| WebauthnAuthenticate.CaptionTexts | src/login/pages/WebauthnAuthenticate.tsx:160-161 | No contract of its own; specified by CaptionGrows and CaptionEnds |
| WebauthnAuthenticate.TransportCaption | src/login/pages/WebauthnAuthenticate.tsx:154-163 | No contract of its own; specified by CaptionGrows and CaptionEnds |
| WebauthnAuthenticate.HiddenInputsPerAuthenticator | src/login/pages/WebauthnAuthenticate.tsx:86-93 | One hidden `authn_use_chk` input per authenticator, in order, holding its credential id, whatever the display flag |
| WebauthnAuthenticate.ListVisibility | src/login/pages/WebauthnAuthenticate.tsx:95-163 | The heading shows exactly when the list is displayed and has more than one authenticator; when displayed there is one card per authenticator, and card i shows authenticator i's icon, label and transport caption; otherwise there are none |
| WebauthnAuthenticate.Render | src/login/pages/WebauthnAuthenticate.tsx:63-163 | No contract of its own; specified by HiddenInputsPerAuthenticator and ListVisibility |
| Info.MessageHtml | src/login/pages/Info.tsx:34-43 | The text is the trimmed summary, followed, when required actions are given, by `" <b>"`, their translations joined by `", "` and `"</b>"` |
| Info.RequiredActionTexts | src/login/pages/Info.tsx:39 | No contract of its own; specified by MessageHtml and RequiredActionListGrows |
| Info.RequiredActionListGrows | src/login/pages/Info.tsx:39 | Each further required action appends `", "` and its translation, keeping the original order |
| Info.Header | src/login/pages/Info.tsx:24 | The translation of `messageHeader` when `messageHeader` is a non-empty string, else the summary |
| Info.LinkOf | src/login/pages/Info.tsx:49-77 | A link is shown exactly when links are not skipped and some target is set; its kind and target follow the rule below |
| Info.LinkPriority | src/login/pages/Info.tsx:54-76 | The targets are tried in order: page redirect (back to application), then action (proceed), then the client's base URL (back to application) |
| Info.FrameProps | src/login/pages/Info.tsx:15-27 | No contract of its own; specified by GlobalAlertSuppressed |
| Info.GlobalAlertSuppressed | src/login/pages/Info.tsx:20 | The frame never shows its alert on this page |
| FrontchannelLogout.EffectRedirect | src/login/pages/FrontchannelLogout.tsx:19-27 | The effect redirects exactly when the redirect URI is a non-empty string and the counter equals the number of clients, and then to that URI |
| FrontchannelLogout.RedirectsUpTo | src/login/pages/FrontchannelLogout.tsx:17-27 | No contract of its own; the redirects the effect asks for on mount and after each load event, specified by AtMostOneRedirect and kept by LogoutPage.Valid |
| FrontchannelLogout.AtMostOneRedirect | src/login/pages/FrontchannelLogout.tsx:17-27 | However many iframes load, at most one redirect happens; it happens exactly when the URI is non-empty and the number of iframe load events reaches the number of clients |
| FrontchannelLogout.Iframes | src/login/pages/FrontchannelLogout.tsx:43-54 | One hidden iframe per client, in order, at that client's front-channel logout URL |
| FrontchannelLogout.ContinueButton | src/login/pages/FrontchannelLogout.tsx:57-61 | The Continue button is there exactly when a redirect URI is given, and links to it |
| FrontchannelLogout.EmptyUriContinuesWithoutRedirect | src/login/pages/FrontchannelLogout.tsx:20 | An empty redirect URI shows Continue but never auto-redirects |
| FrontchannelLogout.LogoutPage.constructor | src/login/pages/FrontchannelLogout.tsx:17 | The counter starts at 0, and the mount effect redirects at once only when there are no clients |
| FrontchannelLogout.LogoutPage.OnIframeLoad | src/login/pages/FrontchannelLogout.tsx:49-51 | Each load raises the counter by exactly one and re-runs the effect; the redirects so far stay those the rule gives for the counter |
| Template.Defaults | src/login/Template.tsx:15-19 | Left-out props default to `displayInfo = false`, `displayMessage = true` and no social or info node |
| Template.HeaderRule | src/login/Template.tsx:86-111 | The attempted username and restart link are shown exactly when auth is defined, asks to show the username and does not show reset credentials; otherwise the page's header node |
| Template.AlertRule | src/login/Template.tsx:114 | The alert is the context message, shown exactly when messages are on, the message exists and it is not a warning during an app-initiated action |
| Template.FormAndFooterRules | src/login/Template.tsx:126-144 | The try-another-way form posts `tryAnotherWay=on` to the login action exactly when auth asks for it; the footer shows the info node only when `displayInfo` is passed as true |
| Template.HeaderOf | src/login/Template.tsx:86-111 | No contract of its own; specified by HeaderRule |
| Template.AlertOf | src/login/Template.tsx:114-122 | No contract of its own; specified by AlertRule |
| Template.TryAnotherWayOf | src/login/Template.tsx:126-142 | No contract of its own; specified by FormAndFooterRules |
| Template.FooterOf | src/login/Template.tsx:143-145 | No contract of its own; specified by FormAndFooterRules |
| Template.DocumentTitle | src/login/Template.tsx:33-35 | The title is `documentTitle` when given, even empty, else `loginTitle` for the realm's display name |
| Template.RenderGate | src/login/Template.tsx:47-149 | Nothing renders until the frame is ready; once ready, the header, alert, body, social providers, try-another-way form and footer are the ones the rules above give |
| Template.Render | src/login/Template.tsx:47-149 | No contract of its own; specified by RenderGate and the rules above |
| Register.Header | src/login/pages/Register.tsx:46 | The translation of `messageHeader` when `messageHeader` is a non-empty string, else `registerTitle` |
| Register.AlertFollowsGlobalMessage | src/login/pages/Register.tsx:47 | The frame's alert shows only when there is a global message |
| Register.SubmitButtonOf | src/login/pages/Register.tsx:89-104 | The invisible reCAPTCHA button is used exactly when reCAPTCHA is required, not visible and has an action; the normal button is disabled exactly when the form is not submittable or required terms are not accepted |
| Register.RecaptchaBranches | src/login/pages/Register.tsx:70-99 | When reCAPTCHA is required, exactly one of the widget and the invisible button is used; otherwise neither is, and the normal button is |
| Register.ShowsRecaptchaWidget | src/login/pages/Register.tsx:70 | No contract of its own; specified by RecaptchaBranches |
| Register.TermsOnlyGateWhenRequired | src/login/pages/Register.tsx:101 | Terms that need no acceptance never affect the button |
| Register.TermsCheckbox | src/login/pages/Register.tsx:60-68 | The terms checkbox is rendered exactly when terms acceptance is required, and shows the accepted flag |
| Register.TermsTitle | src/login/pages/Register.tsx:127 | The terms title is the translation, or "Terms of Service" when that is empty; never empty |
| Register.RegisterState.constructor | src/login/pages/Register.tsx:27-28 | Both flags start false |
| Register.RegisterState.SetFormSubmittable | src/login/pages/Register.tsx:56 | The form-fields callback sets `isFormSubmittable` and nothing else |
| Register.RegisterState.SetTermsAccepted | src/login/pages/Register.tsx:166-167 | The terms checkbox sets `areTermsAccepted` and nothing else |
| Register.RegisterState.Button | src/login/pages/Register.tsx:89-104 | When the normal button is rendered, it is enabled exactly when the form is submittable and the terms, if required, are accepted |
| Register.StartsDisabled | src/login/pages/Register.tsx:27-28 | With both flags at their initial false, the normal button is disabled |
| Register.EnabledExactly | src/login/pages/Register.tsx:101 | The normal button is enabled exactly when the form is submittable and required terms are accepted |
| Login.UsernameLabel | src/login/pages/Login.tsx:135-141 | "username" unless email login is allowed, else "usernameOrEmail" unless email is the username, else "email" |
| Login.SocialSectionOf | src/login/pages/Login.tsx:67-105 | The social section shows exactly with password login and a non-empty provider list; 2 columns exactly for more than 3 providers; one button per provider, in order |
| Login.FrameRules | src/login/pages/Login.tsx:52-54 | A username/password field error suppresses the frame's alert; the registration footer needs password login, registration allowed and not disabled |
| Login.FrameDisplayMessage | src/login/pages/Login.tsx:52 | No contract of its own; specified by FrameRules |
| Login.FrameDisplayInfo | src/login/pages/Login.tsx:54 | No contract of its own; specified by FrameRules |
| Login.FormOf | src/login/pages/Login.tsx:114-236 | The form shows only with password login; the username field shows unless hidden, with the label rule; the credential error appears under the username field when that field is shown, and under the password field only when it is hidden; remember-me needs the realm setting and a visible username; the forgot-password link follows `resetPasswordAllowed`; the password type follows the toggle and the button follows the latch |
| Login.PasskeySection | src/login/pages/Login.tsx:241-260 | The passkey section shows exactly when conditional WebAuthn UI is on; its `authn_use_chk` values are the authenticators' ids in order, none without authenticators |
| LoginOtp.Radios | src/login/pages/LoginOtp.tsx:48-77 | Radios appear only when there is more than one credential, one per credential in order, each checked exactly when the selection is its id |
| LoginOtp.ChooserShown | src/login/pages/LoginOtp.tsx:48 | No contract of its own; what Radios, AtMostOneChecked and ChoosingChecksOnlyThatOne are stated under |
| LoginOtp.Checked | src/login/pages/LoginOtp.tsx:75 | No contract of its own; specified by Radios and CredentialSelection.OnChange |
| LoginOtp.AtMostOneChecked | src/login/pages/LoginOtp.tsx:75 | With distinct ids no two radios are checked together, and a selection naming a credential checks one |
| LoginOtp.ChoosingChecksOnlyThatOne | src/login/pages/LoginOtp.tsx:75-76 | After choosing credential `k`, exactly radio `k` is checked |
| LoginOtp.ErrorOrAlert | src/login/pages/LoginOtp.tsx:35 | Exactly one of the code error span and the frame's message display is on |
| LoginOtp.ErrorSpanShown | src/login/pages/LoginOtp.tsx:120-129 | No contract of its own; specified by ErrorOrAlert |
| LoginOtp.FrameDisplayMessage | src/login/pages/LoginOtp.tsx:35 | No contract of its own; specified by ErrorOrAlert |
| LoginOtp.CredentialSelection.constructor | src/login/pages/LoginOtp.tsx:27 | The selection starts as the server's `selectedCredentialId` |
| LoginOtp.CredentialSelection.OnChange | src/login/pages/LoginOtp.tsx:76 | Changing a radio makes its credential's id the selection, so that radio is checked |
| Js.Truthy | src/login/pages/FrontchannelLogout.tsx:20 | No contract of its own: `undefined` and `""` are falsy; specified through EffectRedirect, Info.Header and Register.Header, whose ensures use it |
| Js.Trim | src/login/pages/Info.tsx:35 | The result is the part of the string between its leading and its trailing whitespace, with no whitespace at either end |
| Js.TrimIdempotent | src/login/pages/Info.tsx:35 | Trimming twice is trimming once |
| Js.Slice | src/login/pages/LoginRecoveryAuthnCodeConfig.tsx:64 | The characters from `start` to `end` clamped to the length; empty when `start` is at or past `end` or past the string |
| Js.SliceFrom | src/login/pages/LoginRecoveryAuthnCodeConfig.tsx:64 | The suffix from `start`, empty past the end |
| Js.TrimStart | src/login/pages/Info.tsx:35 | A suffix of the input; everything dropped is whitespace and the result does not start with whitespace |
| Js.TrimEnd | src/login/pages/Info.tsx:35 | A prefix of the input; everything dropped is whitespace and the result does not end with whitespace |
| Js.ToLower | src/login/pages/WebauthnAuthenticate.tsx:45 | No contract of its own: ASCII lower-casing, character by character |
| Js.Includes | src/login/pages/WebauthnAuthenticate.tsx:47-51 | No contract of its own: `sub` starts at some position of `s` |
| Js.StartsWith | src/login/UserProfileFormFields.tsx:301 | No contract of its own: `prefix` is the first characters of `s` |
| Js.JoinAppend | src/login/pages/WebauthnAuthenticate.tsx:160-162 | Joining one more part appends the separator and that part |
| Js.Join | src/login/pages/WebauthnAuthenticate.tsx:162 | No contract of its own; specified by JoinAppend |

## Left out

- MUI markup, styling, classes and the theme are presentation only.
- Hooks from keycloakify that are not part of this model are inputs:
  - `useUserProfileForm`: the form state, the submittable flag and the displayable errors.
  - `getButtonToDisplayForMultivaluedAttributeField`: the `hasAdd`/`hasRemove` flags.
  - `useInitialize`: `isReadyToRender`.
  - `useScript` on the passkey page: the WebAuthn ceremony.
  - `useScript` on the recovery-code page (src/login/pages/LoginRecoveryAuthnCodeConfig.tsx:26): it wires the print, download and copy buttons (lines 80-113). Those buttons have no logic in the page, and what they do is not modelled.
- `kcSanitize` is foreign code. Texts are modelled as the strings handed to it.
- Translations are parameters. The `msg`, `msgStr`, `advancedMsg` and `advancedMsgStr` tables (src/login/i18n.ts) are not modelled. `I18n.Text` records which key would be looked up.
- `parseInt` of annotations (textarea rows and columns, input sizes) is not modelled, nor the per-`fieldIndex` error display of the user-profile fields. Neither changes a value.
- Side effects are left out, and only the decisions behind them are modelled:
  - `document.title` is set to `Template.DocumentTitle`;
  - `window.location.replace` receives the URI in `FrontchannelLogout.EffectRedirect`;
  - `requestSubmit` of the try-another-way form is not modelled.
- The `window.onSubmitRecaptcha` global and the reCAPTCHA script are not modelled.
- The terms viewer is not modelled: the Blob/URL/`window.open` calls, the DOM-based title escaping and the `setTimeout` revoke. Only the title fallback is.
- UserProfileFormFields.SelectOptions: validators are a map. A JavaScript prototype property named by `inputOptionsFromValidation` is not modelled.
- Js.Slice: indexes characters (Unicode scalar values), not the UTF-16 code units JavaScript's `slice` counts. The two agree on strings inside the Basic Multilingual Plane, such as the ASCII recovery codes Keycloak generates. A character outside it, such as an emoji, counts once here and twice in JavaScript.
- Js.SliceFrom: indexes characters, not UTF-16 code units, for the same reason as Js.Slice.
- LoginRecoveryAuthnCodeConfig.Chunks: splits at characters 4 and 8, not at UTF-16 code units, because it is built on Js.Slice and Js.SliceFrom.
- Js.ToLower: lower-cases ASCII letters only. Transport labels are ASCII keywords, and full Unicode case mapping is not modelled.
- Js.IsWhitespace: covers the ECMAScript WhiteSpace and LineTerminator code points that `trim` removes. It does not model the Unicode database beyond that list.
- The WebAuthn hidden form, the ceremony scripts and the authenticator's `createdAt` text on the passkey page are shown without logic and are not modelled.
- The other pages and the page dispatcher are not part of this model. LoginUsername, LoginPassword, LoginResetOtp and the static pages repeat the rules above.
- Two paths where the source reads through `undefined` cannot occur in the model:
  - `authenticator.transports.displayNameProperties` (src/login/pages/WebauthnAuthenticate.tsx:33) has no `?.` on `transports`, so the icon loop would throw if `transports` were missing. The model's authenticator always carries its transports, with an optional `displayNameProperties`.
  - `message.summary?.trim()` (src/login/pages/Info.tsx:35) gives `undefined` if `summary` is missing. With required actions given, `html += " <b>"` (Info.tsx:37-41) turns it into the text "undefined" followed by the list. Without them, `kcSanitize` receives `undefined` itself. The model's `Info.Context` always has a summary string.
- Concurrency and React's batching of state updates are not modelled: each handler runs to completion before the next.
