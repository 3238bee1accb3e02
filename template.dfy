/**
  The page frame every login page renders into (src/login/Template.tsx):
  the defaults of its props, the header, the global alert, the
  "try another way" form, the footer and the document title.
 */
module Template {
  import opened Js

  /** A fragment of rendered markup handed to the frame by a page; opaque here. */
  type Node = string

  datatype MessageType = Success | Warning | Error | Info

  datatype Message = Message(messageType: MessageType, summary: string)

  datatype Auth = Auth(
    showUsername: bool,
    showResetCredentials: bool,
    showTryAnotherWayLink: bool,
    attemptedUsername: string)

  /** The props a page passes; `None` is a prop left out. */
  datatype Props = Props(
    displayInfo: Option<bool>,
    displayMessage: Option<bool>,
    headerNode: Node,
    socialProvidersNode: Option<Node>,
    infoNode: Option<Node>,
    documentTitle: Option<string>,
    children: Node)

  /** The parts of the server context the frame reads. */
  datatype Context = Context(
    realmDisplayName: string,
    auth: Option<Auth>,
    message: Option<Message>,
    isAppInitiatedAction: bool,   // `undefined` reads as false
    loginAction: string,
    loginRestartFlowUrl: string)

  /** The props after destructuring with their defaults. */
  datatype Resolved = Resolved(
    displayInfo: bool,
    displayMessage: bool,
    socialProvidersNode: Option<Node>,
    infoNode: Option<Node>)

  function Defaults(props: Props): (r: Resolved)
    ensures props.displayInfo.None? ==> !r.displayInfo
    ensures props.displayMessage.None? ==> r.displayMessage
    ensures props.socialProvidersNode.None? ==> r.socialProvidersNode.None?
    ensures props.infoNode.None? ==> r.infoNode.None?
    ensures props.displayInfo.Some? ==> r.displayInfo == props.displayInfo.value
    ensures props.displayMessage.Some? ==> r.displayMessage == props.displayMessage.value
  {
    Resolved(props.displayInfo.GetOr(false), props.displayMessage.GetOr(true), props.socialProvidersNode, props.infoNode)
  }

  datatype Header =
    | PageTitle(node: Node)
    | AttemptedUsername(username: string, restartUrl: string)

  function HeaderOf(props: Props, ctx: Context): Header {
    if ctx.auth.Some? && ctx.auth.value.showUsername && !ctx.auth.value.showResetCredentials then
      AttemptedUsername(ctx.auth.value.attemptedUsername, ctx.loginRestartFlowUrl)
    else PageTitle(props.headerNode)
  }

  /** The alert shown above the page body, if any. */
  function AlertOf(props: Props, ctx: Context): Option<Message> {
    if Defaults(props).displayMessage && ctx.message.Some?
       && (ctx.message.value.messageType != Warning || !ctx.isAppInitiatedAction)
    then ctx.message
    else None
  }

  /** The "try another way" form: it posts `tryAnotherWay=on` to the login action. */
  datatype TryAnotherWayForm = TryAnotherWayForm(action: string, fieldName: string, fieldValue: string)

  function TryAnotherWayOf(ctx: Context): Option<TryAnotherWayForm> {
    if ctx.auth.Some? && ctx.auth.value.showTryAnotherWayLink then Some(TryAnotherWayForm(ctx.loginAction, "tryAnotherWay", "on"))
    else None
  }

  function FooterOf(props: Props): Option<Node> {
    if Defaults(props).displayInfo then Defaults(props).infoNode else None
  }

  /**
    The title the frame gives the document: `documentTitle` when passed,
    even an empty one, else the `loginTitle` message for the realm's display
    name (as `loginTitle` renders it).
   */
  function DocumentTitle(props: Props, ctx: Context, loginTitle: string -> string): (t: string)
    ensures props.documentTitle.Some? ==> t == props.documentTitle.value
    ensures props.documentTitle.None? ==> t == loginTitle(ctx.realmDisplayName)
  {
    props.documentTitle.GetOr(loginTitle(ctx.realmDisplayName))
  }

  datatype View = View(
    header: Header,
    alert: Option<Message>,
    body: Node,
    socialProviders: Option<Node>,
    tryAnotherWay: Option<TryAnotherWayForm>,
    footer: Option<Node>)

  /** The frame's markup; nothing at all until initialisation reports it ready. */
  function Render(props: Props, ctx: Context, isReadyToRender: bool): Option<View> {
    if !isReadyToRender then None
    else Some(View(HeaderOf(props, ctx), AlertOf(props, ctx), props.children, Defaults(props).socialProvidersNode,
                   TryAnotherWayOf(ctx), FooterOf(props)))
  }

  /** The header shows the attempted username and a restart link, or the page's header node. */
  lemma HeaderRule(props: Props, ctx: Context)
    ensures HeaderOf(props, ctx).AttemptedUsername? <==>
      ctx.auth.Some? && ctx.auth.value.showUsername && !ctx.auth.value.showResetCredentials
    ensures HeaderOf(props, ctx).AttemptedUsername? ==>
      HeaderOf(props, ctx) == AttemptedUsername(ctx.auth.value.attemptedUsername, ctx.loginRestartFlowUrl)
    ensures HeaderOf(props, ctx).PageTitle? ==> HeaderOf(props, ctx).node == props.headerNode
  {
  }

  /**
    An alert is the context's message, shown when messages are on (by
    default they are) unless it is a warning during an app-initiated action.
   */
  lemma AlertRule(props: Props, ctx: Context)
    ensures AlertOf(props, ctx).Some? <==>
      Defaults(props).displayMessage && ctx.message.Some? && (ctx.message.value.messageType != Warning || !ctx.isAppInitiatedAction)
    ensures AlertOf(props, ctx).Some? ==> AlertOf(props, ctx) == ctx.message
    ensures props.displayMessage == Some(false) ==> AlertOf(props, ctx).None?
    ensures props.displayMessage.None? && ctx.message.Some? && !ctx.isAppInitiatedAction ==> AlertOf(props, ctx) == ctx.message
  {
  }

  /** The try-another-way form needs an auth record asking for it; the footer needs displayInfo. */
  lemma FormAndFooterRules(props: Props, ctx: Context)
    ensures TryAnotherWayOf(ctx).Some? <==> ctx.auth.Some? && ctx.auth.value.showTryAnotherWayLink
    ensures TryAnotherWayOf(ctx).Some? ==> TryAnotherWayOf(ctx).value == TryAnotherWayForm(ctx.loginAction, "tryAnotherWay", "on")
    ensures FooterOf(props).Some? ==> props.displayInfo == Some(true) && FooterOf(props) == props.infoNode
    ensures props.displayInfo == Some(true) ==> FooterOf(props) == props.infoNode
  {
  }

  /** Nothing is rendered until ready; once ready, the view is made of the rules above. */
  lemma RenderGate(props: Props, ctx: Context, isReadyToRender: bool)
    ensures Render(props, ctx, isReadyToRender).Some? <==> isReadyToRender
    ensures isReadyToRender ==>
      Render(props, ctx, isReadyToRender).value.alert == AlertOf(props, ctx)
      && Render(props, ctx, isReadyToRender).value.socialProviders == props.socialProvidersNode
    ensures isReadyToRender ==>
      Render(props, ctx, isReadyToRender).value.header == HeaderOf(props, ctx)
      && Render(props, ctx, isReadyToRender).value.body == props.children
      && Render(props, ctx, isReadyToRender).value.tryAnotherWay == TryAnotherWayOf(ctx)
      && Render(props, ctx, isReadyToRender).value.footer == FooterOf(props)
  {
  }
}
