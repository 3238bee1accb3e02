/**
  The information page (src/login/pages/Info.tsx): its header, its message
  text with the list of required actions, and the one link it offers.
 */
module Info {
  import opened Js
  import Template

  datatype Context = Context(
    messageHeader: Option<string>,
    summary: string,                       // `message.summary`
    requiredActions: Option<seq<string>>,
    skipLink: bool,
    pageRedirectUri: Option<string>,
    actionUri: Option<string>,
    clientBaseUrl: Option<string>)

  /** The translated names of the required actions, in their original order. */
  function RequiredActionTexts(requiredActions: seq<string>, advancedMsgStr: string -> string): seq<string> {
    seq(|requiredActions|, i requires 0 <= i < |requiredActions| => advancedMsgStr("requiredAction." + requiredActions[i]))
  }

  /**
    The message text (handed to the sanitizer): the trimmed summary, and,
    when the required actions are given (even as an empty list, which is
    truthy), " <b>", their translations joined with ", ", and "</b>".
   */
  method MessageHtml(ctx: Context, advancedMsgStr: string -> string) returns (html: string)
    ensures ctx.requiredActions.None? ==> html == Trim(ctx.summary)
    ensures ctx.requiredActions.Some? ==>
      html == Trim(ctx.summary) + " <b>" + Join(RequiredActionTexts(ctx.requiredActions.value, advancedMsgStr), ", ") + "</b>"
    ensures ctx.requiredActions == Some([]) ==> html == Trim(ctx.summary) + " <b></b>"
  {
    html := Trim(ctx.summary);
    if ctx.requiredActions.Some? {
      html := html + " <b>";
      html := html + Join(RequiredActionTexts(ctx.requiredActions.value, advancedMsgStr), ", ");
      html := html + "</b>";
    }
  }

  /** A further required action appends ", " and its translation inside the bold list. */
  lemma RequiredActionListGrows(requiredActions: seq<string>, action: string, advancedMsgStr: string -> string)
    requires requiredActions != []
    ensures Join(RequiredActionTexts(requiredActions + [action], advancedMsgStr), ", ")
      == Join(RequiredActionTexts(requiredActions, advancedMsgStr), ", ") + ", " + advancedMsgStr("requiredAction." + action)
  {
    assert RequiredActionTexts(requiredActions + [action], advancedMsgStr)
      == RequiredActionTexts(requiredActions, advancedMsgStr) + [advancedMsgStr("requiredAction." + action)];
    JoinAppend(RequiredActionTexts(requiredActions, advancedMsgStr), ", ", advancedMsgStr("requiredAction." + action));
  }

  /** The header: the translated message header when it is a non-empty string, else the summary. */
  function Header(ctx: Context, advancedMsgStr: string -> string): (h: string)
    ensures Truthy(ctx.messageHeader) ==> h == advancedMsgStr(ctx.messageHeader.value)
    ensures !Truthy(ctx.messageHeader) ==> h == ctx.summary
  {
    if Truthy(ctx.messageHeader) then advancedMsgStr(ctx.messageHeader.value) else ctx.summary
  }

  datatype Link = BackToApplication(href: string) | ProceedWithAction(href: string)

  /** The link below the message: the first truthy target in the priority order, unless links are skipped. */
  function LinkOf(ctx: Context): (r: Option<Link>)
    ensures r.Some? <==> !ctx.skipLink && (Truthy(ctx.pageRedirectUri) || Truthy(ctx.actionUri) || Truthy(ctx.clientBaseUrl))
    ensures r.Some? && r.value.ProceedWithAction? ==>
      !Truthy(ctx.pageRedirectUri) && Truthy(ctx.actionUri) && r.value.href == ctx.actionUri.value
    ensures r.Some? && r.value.BackToApplication? ==>
      (Truthy(ctx.pageRedirectUri) && r.value.href == ctx.pageRedirectUri.value)
      || (!Truthy(ctx.pageRedirectUri) && !Truthy(ctx.actionUri) && Truthy(ctx.clientBaseUrl) && r.value.href == ctx.clientBaseUrl.value)
  {
    if ctx.skipLink then None
    else if Truthy(ctx.pageRedirectUri) then Some(BackToApplication(ctx.pageRedirectUri.value))
    else if Truthy(ctx.actionUri) then Some(ProceedWithAction(ctx.actionUri.value))
    else if Truthy(ctx.clientBaseUrl) then Some(BackToApplication(ctx.clientBaseUrl.value))
    else None
  }

  /** The targets are tried as page redirect, then action, then the client's base URL. */
  lemma LinkPriority(ctx: Context)
    requires !ctx.skipLink
    ensures Truthy(ctx.pageRedirectUri) ==> LinkOf(ctx) == Some(BackToApplication(ctx.pageRedirectUri.value))
    ensures !Truthy(ctx.pageRedirectUri) && Truthy(ctx.actionUri) ==> LinkOf(ctx) == Some(ProceedWithAction(ctx.actionUri.value))
    ensures !Truthy(ctx.pageRedirectUri) && !Truthy(ctx.actionUri) && Truthy(ctx.clientBaseUrl) ==>
      LinkOf(ctx) == Some(BackToApplication(ctx.clientBaseUrl.value))
  {
  }

  /** The props the page passes to the frame: messages off, and the header text as header node. */
  function FrameProps(ctx: Context, advancedMsgStr: string -> string, body: Template.Node): Template.Props {
    Template.Props(None, Some(false), Header(ctx, advancedMsgStr), None, None, None, body)
  }

  /** The frame's global alert never shows on this page, whatever the message. */
  lemma GlobalAlertSuppressed(ctx: Context, advancedMsgStr: string -> string, body: Template.Node, frame: Template.Context)
    ensures Template.AlertOf(FrameProps(ctx, advancedMsgStr, body), frame).None?
  {
  }
}
