/**
 * The extension-side end of the webview channel
 * (src/webview/SkyWebViewProvider.ts): the router for messages coming up
 * from the webview, the drop-when-detached rule for messages going down to
 * it, and the nonce generator.
 */
module Provider {
  import opened Wrappers
  import opened Protocol

  /** The view id the provider is registered under. */
  const ViewType := "skyAgent.skyView"

  /** The command that hands webview messages to the extension's main logic. */
  const HandlerCommand := "skyAgent.internal.handleWebViewMessage"

  /** One `vscode.commands.executeCommand(command, argument)` call. */
  datatype Command = ExecuteCommand(command: string, argument: Message)

  /** A webview view instance VS Code hands to `resolveWebviewView`. */
  datatype WebviewView = WebviewView(id: nat)

  /** One `webview.postMessage(message)` call on `view`. */
  datatype Delivery = Delivery(view: WebviewView, message: Message)

  /** The message kinds the provider forwards. */
  predicate IsForwarded(kind: string) {
    kind == SendToGemini || kind == InformExtension
  }

  /** The `onDidReceiveMessage` switch: the commands one message from the
      webview causes. A `sendToGemini` or `informExtension` message goes,
      unchanged, to the handler command once; anything else is dropped
      with a warning. */
  function Route(message: Message): (r: seq<Command>)
    ensures |r| <= 1
    ensures r != [] <==> IsForwarded(message.kind)
    ensures forall c :: c in r ==> c == ExecuteCommand(HandlerCommand, message)
  {
    match message.kind
    case "sendToGemini" => [ExecuteCommand(HandlerCommand, message)]
    case "informExtension" => [ExecuteCommand(HandlerCommand, message)]
    case _ => []
  }

  /** The commands a stream of webview messages causes, in order. */
  function RouteAll(messages: seq<Message>): seq<Command> {
    if messages == [] then []
    else RouteAll(messages[..|messages| - 1]) + Route(messages[|messages| - 1])
  }

  /** The messages of `messages` that the router forwards, in order. */
  function ForwardedOnly(messages: seq<Message>): seq<Message> {
    if messages == [] then []
    else
      var last := messages[|messages| - 1];
      ForwardedOnly(messages[..|messages| - 1]) + (if IsForwarded(last.kind) then [last] else [])
  }

  /** The router neither invents, reorders nor alters messages: the commands
      a stream causes are the handler command applied, in order, to exactly
      the forwarded messages of the stream. */
  lemma {:induction false} RouteAllIsFilter(messages: seq<Message>)
    ensures |RouteAll(messages)| == |ForwardedOnly(messages)| <= |messages|
    ensures forall i :: 0 <= i < |RouteAll(messages)| ==>
      RouteAll(messages)[i] == ExecuteCommand(HandlerCommand, ForwardedOnly(messages)[i])
  {
    if messages != [] {
      RouteAllIsFilter(messages[..|messages| - 1]);
    }
  }

  /** The webview's own log messages never reach the handler command. */
  lemma {:induction false} LogMessagesDropped(messages: seq<Message>)
    requires forall i :: 0 <= i < |messages| ==> messages[i].kind == WebviewLog
    ensures RouteAll(messages) == []
  {
    if messages != [] {
      var last := messages[|messages| - 1];
      assert !IsForwarded(last.kind) by {
        assert |WebviewLog| == 10 && |SendToGemini| == 12 && |InformExtension| == 15;
      }
      LogMessagesDropped(messages[..|messages| - 1]);
    }
  }

  /** The provider's state: the view it has been given, and what it has
      done through VS Code so far. */
  class SkyWebViewProvider {
    /** `_view` */
    var view: Option<WebviewView>
    /** Commands executed from the message listener, oldest first. */
    var executed: seq<Command>
    /** Messages posted into a webview, oldest first. */
    var delivered: seq<Delivery>

    constructor ()
      ensures view == None && executed == [] && delivered == []
    {
      view, executed, delivered := None, [], [];
    }

    /** `resolveWebviewView`: stores the view; its HTML and options are
        not modelled. */
    method ResolveWebviewView(webviewView: WebviewView)
      modifies this`view
      ensures view == Some(webviewView)
    {
      view := Some(webviewView);
    }

    /** The listener `resolveWebviewView` attaches to the view. */
    method OnDidReceiveMessage(message: Message)
      modifies this`executed
      ensures executed == old(executed) + Route(message)
    {
      match message.kind {
        case "sendToGemini" =>
          executed := executed + [ExecuteCommand(HandlerCommand, message)];
        case "informExtension" =>
          executed := executed + [ExecuteCommand(HandlerCommand, message)];
        case _ =>
      }
    }

    /** `postMessageToWebview`: delivers to the stored view if there is
        one; otherwise only warns. Nothing is kept for later. */
    method PostMessageToWebview(message: Message)
      modifies this`delivered
      ensures view.Some? ==> delivered == old(delivered) + [Delivery(view.value, message)]
      ensures view.None? ==> delivered == old(delivered)
    {
      if view.Some? {
        delivered := delivered + [Delivery(view.value, message)];
      }
    }
  }

  /** A message posted before any view is resolved is lost: it is not
      delivered then, nor once a view arrives; only what is posted
      afterwards reaches the view. */
  method PostBeforeAndAfterResolve(early: Message, webviewView: WebviewView, late: Message)
    returns (delivered: seq<Delivery>)
    ensures delivered == [Delivery(webviewView, late)]
  {
    var provider := new SkyWebViewProvider();
    provider.PostMessageToWebview(early);
    provider.ResolveWebviewView(webviewView);
    provider.PostMessageToWebview(late);
    delivered := provider.delivered;
  }

  /** `possible` in `getNonce`,
      "ABCDEFGHIJKLMNOPQRSTUVWXYZabcdefghijklmnopqrstuvwxyz0123456789",
      written as its three runs. */
  const NonceAlphabet: string := UpperCase + LowerCase + Digits

  /** Iterations of the `getNonce` loop. */
  const NonceLength := 32

  /** `Math.floor(Math.random() * possible.length)`: an index into the
      alphabet. */
  type Draw = i: int | 0 <= i < 62

  predicate IsAsciiAlphanumeric(c: char) {
    'A' <= c <= 'Z' || 'a' <= c <= 'z' || '0' <= c <= '9'
  }

  /** The alphabet's character at `k`, by arithmetic: upper-case letters,
      then lower-case letters, then digits. */
  function AlphabetChar(k: Draw): char {
    if k < 26 then ('A' as int + k) as char
    else if k < 52 then ('a' as int + k - 26) as char
    else ('0' as int + k - 52) as char
  }

  /** Where an alphanumeric character sits in the alphabet. */
  function AlphabetIndex(c: char): (k: Draw)
    requires IsAsciiAlphanumeric(c)
  {
    if 'A' <= c <= 'Z' then c as int - 'A' as int
    else if 'a' <= c <= 'z' then 26 + c as int - 'a' as int
    else 52 + c as int - '0' as int
  }

  /** The three runs the alphabet literal is made of. */
  const UpperCase: string := "ABCDEFGHIJKLMNOPQRSTUVWXYZ"
  const LowerCase: string := "abcdefghijklmnopqrstuvwxyz"
  const Digits: string := "0123456789"

  lemma UpperCaseLayout(k: int)
    requires 0 <= k < 26
    ensures UpperCase[k] == ('A' as int + k) as char
  {
  }

  lemma LowerCaseLayout(k: int)
    requires 0 <= k < 26
    ensures LowerCase[k] == ('a' as int + k) as char
  {
  }

  lemma DigitsLayout(k: int)
    requires 0 <= k < 10
    ensures Digits[k] == ('0' as int + k) as char
  {
  }

  /** The alphabet literal is the 62 ASCII letters and digits, each once:
      upper case from index 0, lower case from 26, digits from 52. */
  lemma AlphabetLayout(k: Draw)
    ensures NonceAlphabet[k] == AlphabetChar(k)
  {
    if k < 26 {
      UpperCaseLayout(k);
    } else if k < 52 {
      LowerCaseLayout(k - 26);
    } else {
      DigitsLayout(k - 52);
    }
  }

  /** Each draw picks an ASCII letter or digit, and the draw can be read
      back from the character it picked. */
  lemma AlphabetIndexOfChar(k: Draw)
    ensures IsAsciiAlphanumeric(NonceAlphabet[k])
    ensures AlphabetIndex(NonceAlphabet[k]) == k
  {
    AlphabetLayout(k);
  }

  /** Every ASCII letter and digit is in the alphabet, at the index
      `AlphabetIndex` gives. */
  lemma AlphabetCharOfIndex(c: char)
    requires IsAsciiAlphanumeric(c)
    ensures NonceAlphabet[AlphabetIndex(c)] == c
  {
    AlphabetLayout(AlphabetIndex(c));
  }

  /** `getNonce`: 32 characters, each picked from the alphabet by one draw.
      Every character is an ASCII letter or digit, and the draws can be
      read back from the nonce, so distinct draws give distinct nonces. */
  method GetNonce(draws: seq<Draw>) returns (text: string)
    requires |draws| == NonceLength
    ensures |text| == NonceLength
    ensures forall i :: 0 <= i < |text| ==> text[i] == NonceAlphabet[draws[i]]
    ensures forall i :: 0 <= i < |text| ==> IsAsciiAlphanumeric(text[i])
    ensures forall i :: 0 <= i < |text| ==> AlphabetIndex(text[i]) == draws[i]
  {
    text := "";
    for i := 0 to NonceLength
      invariant |text| == i
      invariant forall k :: 0 <= k < i ==> text[k] == NonceAlphabet[draws[k]]
    {
      text := text + [NonceAlphabet[draws[i]]];
    }
    forall i | 0 <= i < |text|
      ensures IsAsciiAlphanumeric(text[i]) && AlphabetIndex(text[i]) == draws[i]
    {
      AlphabetIndexOfChar(draws[i]);
    }
  }
}
