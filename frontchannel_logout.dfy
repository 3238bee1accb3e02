/**
  The front-channel logout page (src/login/pages/FrontchannelLogout.tsx):
  one hidden iframe per client, a counter of iframe load events, and an
  effect that redirects when that count reaches the number of clients.
 */
module FrontchannelLogout {
  import opened Js

  datatype Client = Client(name: string, frontChannelLogoutUrl: string)

  /**
    What the effect decides for a value of the counter: redirect to the
    logout redirect URI when it is a non-empty string and the counter equals
    the number of clients, else do nothing.
   */
  function EffectRedirect(logoutRedirectUri: Option<string>, clientCount: nat, count: nat): (r: Option<string>)
    ensures r.Some? <==> Truthy(logoutRedirectUri) && count == clientCount
    ensures r.Some? ==> r.value == logoutRedirectUri.value
  {
    if !Truthy(logoutRedirectUri) then None
    else if count != clientCount then None
    else Some(logoutRedirectUri.value)
  }

  /** The redirects the effect asks for on mount (counter 0) and after each of `loads` loads. */
  function RedirectsUpTo(logoutRedirectUri: Option<string>, clientCount: nat, loads: nat): seq<string> {
    var previous := if loads == 0 then [] else RedirectsUpTo(logoutRedirectUri, clientCount, loads - 1);
    match EffectRedirect(logoutRedirectUri, clientCount, loads)
    case Some(uri) => previous + [uri]
    case None => previous
  }

  /**
    However many iframe load events occur, the page asks for at most one
    redirect: the logout redirect URI, once the load count has reached the
    number of clients.
   */
  lemma {:induction false} AtMostOneRedirect(logoutRedirectUri: Option<string>, clientCount: nat, loads: nat)
    ensures |RedirectsUpTo(logoutRedirectUri, clientCount, loads)| <= 1
    ensures RedirectsUpTo(logoutRedirectUri, clientCount, loads) != [] <==> Truthy(logoutRedirectUri) && clientCount <= loads
    ensures RedirectsUpTo(logoutRedirectUri, clientCount, loads) != [] ==>
      RedirectsUpTo(logoutRedirectUri, clientCount, loads) == [logoutRedirectUri.value]
  {
    if loads > 0 {
      AtMostOneRedirect(logoutRedirectUri, clientCount, loads - 1);
    }
  }

  /** The hidden iframes: one per client, in order, each loading that client's logout URL. */
  function Iframes(clients: seq<Client>): (srcs: seq<string>)
    ensures |srcs| == |clients|
    ensures forall i :: 0 <= i < |clients| ==> srcs[i] == clients[i].frontChannelLogoutUrl
  {
    if clients == [] then [] else [clients[0].frontChannelLogoutUrl] + Iframes(clients[1..])
  }

  /** The Continue button's link: there whenever a redirect URI is given, even an empty one. */
  function ContinueButton(logoutRedirectUri: Option<string>): (href: Option<string>)
    ensures href.Some? <==> logoutRedirectUri.Some?
    ensures href.Some? ==> href.value == logoutRedirectUri.value
  {
    logoutRedirectUri
  }

  /** An empty redirect URI shows the Continue button but never redirects by itself. */
  lemma EmptyUriContinuesWithoutRedirect(clientCount: nat, loads: nat)
    ensures ContinueButton(Some("")) == Some("")
    ensures RedirectsUpTo(Some(""), clientCount, loads) == []
  {
    AtMostOneRedirect(Some(""), clientCount, loads);
  }

  /** The page's state: `const [iframeLoadCount, setIframeLoadCount] = useState(0)` and the redirects asked for. */
  class LogoutPage {
    const clients: seq<Client>
    const logoutRedirectUri: Option<string>
    var iframeLoadCount: nat
    /** The `window.location.replace` calls made so far, in order. */
    var redirects: seq<string>

    predicate Valid()
      reads this
    {
      redirects == RedirectsUpTo(logoutRedirectUri, |clients|, iframeLoadCount)
    }

    /** Mounting renders with the counter at 0 and runs the effect once. */
    constructor (clients: seq<Client>, logoutRedirectUri: Option<string>)
      ensures this.clients == clients && this.logoutRedirectUri == logoutRedirectUri
      ensures iframeLoadCount == 0
      ensures redirects == (if Truthy(logoutRedirectUri) && clients == [] then [logoutRedirectUri.value] else [])
      ensures Valid()
    {
      this.clients := clients;
      this.logoutRedirectUri := logoutRedirectUri;
      iframeLoadCount := 0;
      var r := EffectRedirect(logoutRedirectUri, |clients|, 0);
      redirects := if r.Some? then [r.value] else [];
    }

    /** An iframe's onLoad: the counter goes up by one, and the effect runs for the new value. */
    method OnIframeLoad() returns (redirect: Option<string>)
      requires Valid()
      modifies this
      ensures iframeLoadCount == old(iframeLoadCount) + 1
      ensures redirect == EffectRedirect(logoutRedirectUri, |clients|, iframeLoadCount)
      ensures redirects == old(redirects) + (if redirect.Some? then [redirect.value] else [])
      ensures Valid()
    {
      iframeLoadCount := iframeLoadCount + 1;
      redirect := EffectRedirect(logoutRedirectUri, |clients|, iframeLoadCount);
      if redirect.Some? {
        redirects := redirects + [redirect.value];
      }
    }
  }
}
