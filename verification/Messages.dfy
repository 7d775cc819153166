/** The JSON-RPC frames the document pipeline moves, as far as any of its machines looks at them: the method,
    the id, the document, its version and its text. */
module Messages {
  import opened Wrappers

  type Id = int
  type Uri = string
  type Text = string
  type Time = int

  /** The methods some branch of the source names; the rest are `Other`. */
  datatype Method =
    | Initialize | Shutdown
    | DidOpen | DidChange | DidClose
    | CancelRequest | KeepAlive | Release | StaleDependency
    | SemanticTokens | Completion
    | PublishDiagnostics | FileProgress | HeaderStatus
    | Other(text: string)

  /** What a frame says about a document: all its text, a part of it, a position in it, or nothing. */
  datatype Content = Whole(text: Text) | Part | At(line: nat) | NoText

  datatype Msg = Msg(id: Option<Id>, name: Option<Method>, uri: Option<Uri>, version: Option<int>,
                     content: Content, target: Option<Id>)
  {
    predicate Is(m: Method) { name == Some(m) }

    predicate IsRequest() { id.Some? && name.Some? }

    predicate IsReply() { id.Some? && name.None? }

    /** A didChange whose single content change is the whole text. */
    predicate IsFullTextChange() { Is(DidChange) && content.Whole? }

    /** A frame that carries a document's text: the ones the document pipeline must not lose. */
    predicate IsDocument() { Is(DidOpen) || Is(DidChange) }
  }
}
