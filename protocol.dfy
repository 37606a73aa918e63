/**
 * The untyped message envelope `{ type, text?, ... }` that the webview and
 * the extension host post to each other, and the `type` values they use.
 */
module Protocol {
  import opened Wrappers

  /** `kind` is the envelope's `type`; `text` its optional `text`; `extra`
      every other field (`payload`, or `level`/`message`/`error` of a log
      message), carried as opaque strings. */
  datatype Message = Message(kind: string, text: Option<string>, extra: map<string, string>)

  /** Webview to host: a finished utterance for the model. */
  const SendToGemini := "sendToGemini"
  /** Webview to host: a generic notice. */
  const InformExtension := "informExtension"
  /** Webview to host: a diagnostic log line. */
  const WebviewLog := "webviewLog"
  /** Host to webview: the model's reply. */
  const GeminiResponse := "geminiResponse"
}
