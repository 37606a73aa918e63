/**
 * The webview and the provider together: what the capture machine posts
 * is exactly what the provider hands to the extension's handler command.
 */
module Pipeline {
  import opened Wrappers
  import opened JsText
  import opened Protocol
  import Capture
  import Provider

  /** Every message the capture machine can post is forwarded, unchanged
      and in order, once each. */
  lemma {:induction false} SubmissionsAreForwarded(messages: seq<Message>)
    requires forall i :: 0 <= i < |messages| ==> Capture.Submittable(messages[i])
    ensures |Provider.RouteAll(messages)| == |messages|
    ensures forall i :: 0 <= i < |messages| ==>
      Provider.RouteAll(messages)[i] == Provider.ExecuteCommand(Provider.HandlerCommand, messages[i])
  {
    if messages != [] {
      SubmissionsAreForwarded(messages[..|messages| - 1]);
    }
  }

  /** One spoken turn end to end: the activation's final text, trimmed,
      reaches the handler command once if it is not blank, and nothing
      reaches it otherwise. */
  method SpokenTurn(events: seq<Capture.ResultEvent>, ending: Capture.Ending, late: seq<Capture.ResultEvent>)
    returns (commands: seq<Provider.Command>)
    ensures |commands| <= 1
    ensures commands != [] <==> Trim(Capture.Utterance(events + late)) != ""
    ensures forall c :: c in commands ==>
      c == Provider.ExecuteCommand(Provider.HandlerCommand,
                                   Message(SendToGemini, Some(Trim(Capture.Utterance(events + late))), map[]))
  {
    var sent, _, _ := Capture.Activation(events, ending, late);
    var provider := new Provider.SkyWebViewProvider();
    if sent != [] {
      provider.OnDidReceiveMessage(sent[0]);
    }
    commands := provider.executed;
  }
}
