/**
 * The extension's module-level state (src/extension.ts): the API key, the
 * model client and model handles, and the conversation history, with the
 * key check and client construction that run when the module loads.
 */
module Extension {
  import opened Wrappers
  import opened JsText

  /** `GEMINI_API_KEY_PLACEHOLDER` */
  const ApiKeyPlaceholder := "YOUR_GEMINI_API_KEY_HERE"

  /** A `GoogleGenerativeAI` client, built from an API key. */
  datatype Client = Client(apiKey: string)

  /** A `GenerativeModel`, obtained from a client. */
  datatype Model = Model(client: Client)

  /** What a call into the model library did: returned, or threw an error
      with that message. */
  datatype Step = Succeeds | Throws(message: string)

  /** The warnings and errors shown to the user. */
  datatype Notice = KeyNotSetWarning | InitFailed(message: string)

  datatype Role = User | ModelRole

  /** `ConversationMessage`: a role and its parts (the field is `test`). */
  datatype ConversationMessage = ConversationMessage(role: Role, parts: seq<string>)

  /** The key check: a key that is missing, empty or the placeholder is
      refused. */
  predicate KeyUsable(key: Option<string>) {
    !(key == Some(ApiKeyPlaceholder) || !Truthy(key))
  }

  /** `genAIClient` and `geminiModel` together. */
  datatype Handles = Handles(client: Option<Client>, model: Option<Model>)

  /** Both handles are set, the model from that client, or both are null. */
  predicate Consistent(h: Handles) {
    && (h.client.Some? <==> h.model.Some?)
    && (h.model.Some? ==> h.model.value.client == h.client.value)
  }

  /** The handles once the key check and construction have run from
      `prior`. With a refused key nothing is touched. Otherwise the handles
      are set, from a client built on that key, exactly when both
      construction steps succeed, and both are null when either throws. */
  function Initialised(prior: Handles, key: Option<string>, construct: Step, getModel: Step): (h: Handles)
    ensures !KeyUsable(key) ==> h == prior
    ensures KeyUsable(key) ==> Consistent(h)
    ensures KeyUsable(key) ==> (h.client.Some? <==> construct.Succeeds? && getModel.Succeeds?)
    ensures KeyUsable(key) && h.client.Some? ==> key.Some? && h.client.value.apiKey == key.value
    ensures Consistent(prior) ==> Consistent(h)
  {
    if !KeyUsable(key) then prior
    else if construct.Succeeds? && getModel.Succeeds? then
      Handles(Some(Client(key.value)), Some(Model(Client(key.value))))
    else
      Handles(None, None)
  }

  /** What the user is shown while the client is set up: a warning for a
      refused key, the thrown message when construction fails, nothing
      otherwise. */
  function InitNotices(key: Option<string>, construct: Step, getModel: Step): (r: seq<Notice>)
    ensures !KeyUsable(key) <==> r == [KeyNotSetWarning]
    ensures KeyUsable(key) ==> (r == [] <==> construct.Succeeds? && getModel.Succeeds?)
    ensures KeyUsable(key) && construct.Throws? ==> r == [InitFailed(construct.message)]
    ensures KeyUsable(key) && construct.Succeeds? && getModel.Throws? ==> r == [InitFailed(getModel.message)]
  {
    if !KeyUsable(key) then [KeyNotSetWarning]
    else if construct.Throws? then [InitFailed(construct.message)]
    else if getModel.Throws? then [InitFailed(getModel.message)]
    else []
  }

  /** The module's globals. */
  class ExtensionState {
    /** `geminiApiKey` */
    var apiKey: Option<string>
    /** `genAIClient` */
    var client: Option<Client>
    /** `geminiModel` */
    var model: Option<Model>
    /** `conversationHistory` */
    var history: seq<ConversationMessage>
    /** Warnings and errors shown so far, oldest first. */
    var notices: seq<Notice>

    /** The initialisers: the key is the placeholder, the handles null and
        the history empty. */
    constructor ()
      ensures apiKey == Some(ApiKeyPlaceholder)
      ensures client == None && model == None
      ensures history == [] && notices == []
    {
      apiKey := Some(ApiKeyPlaceholder);
      client, model := None, None;
      history, notices := [], [];
    }

    /** The key check and the client and model construction. */
    method InitialiseClient(construct: Step, getModel: Step)
      modifies this`client, this`model, this`notices
      ensures Handles(client, model) == Initialised(old(Handles(client, model)), apiKey, construct, getModel)
      ensures notices == old(notices) + InitNotices(apiKey, construct, getModel)
    {
      if apiKey == Some(ApiKeyPlaceholder) || !Truthy(apiKey) {
        notices := notices + [KeyNotSetWarning];
      } else {
        match construct {
          case Throws(message) =>
            notices := notices + [InitFailed(message)];
            client, model := None, None;
          case Succeeds =>
            client := Some(Client(apiKey.value));
            match getModel {
              case Throws(message) =>
                notices := notices + [InitFailed(message)];
                client, model := None, None;
              case Succeeds =>
                model := Some(Model(client.value));
            }
        }
      }
    }
  }

  /** The module as it is shipped: the key is still the placeholder, so
      loading it leaves both handles null and the history empty, and shows
      the key warning, whatever the library would have done. */
  method LoadAsShipped(construct: Step, getModel: Step)
    returns (handles: Handles, history: seq<ConversationMessage>, notices: seq<Notice>)
    ensures handles == Handles(None, None)
    ensures history == []
    ensures notices == [KeyNotSetWarning]
  {
    var state := new ExtensionState();
    state.InitialiseClient(construct, getModel);
    handles, history, notices := Handles(state.client, state.model), state.history, state.notices;
  }
}
