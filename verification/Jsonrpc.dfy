/**
 The part of a JSON-RPC message that routing depends on (internal/jsonrpc/message.go).
 Raw JSON fields are byte strings; an absent field is the empty string. `verb` is the field "method".
 */
module Jsonrpc {
  import Bytes

  datatype RpcError = NoError | RpcError(code: int, message: string)

  datatype Message = Message(id: string, verb: string, params: string, result: string, error: RpcError) {
    predicate HasId() {
      id != "" && Bytes.TrimSpace(id) != "null"
    }

    predicate IsRequest() {
      verb != "" && HasId()
    }

    predicate IsNotification() {
      verb != "" && !HasId()
    }

    predicate IsResponse() {
      verb == "" && HasId() && (result != "" || error.RpcError?)
    }

    /** A response carrying the given raw id. */
    predicate Answers(requestId: string) {
      IsResponse() && id == requestId
    }
  }

  /** A message is of at most one kind, one with a method always of one, and an error response answers its request. */
  lemma Kinds(m: Message, id: string, text: string)
    ensures !(m.IsRequest() && m.IsNotification()) && !(m.IsResponse() && (m.IsRequest() || m.IsNotification()))
    ensures m.verb != "" ==> m.IsRequest() || m.IsNotification()
    ensures ErrorResponse(id, text).HasId() ==> ErrorResponse(id, text).Answers(id)
  {
  }

  const METHOD_INITIALIZE := "initialize"
  const METHOD_INITIALIZED := "notifications/initialized"

  /** The -32000 error response the proxy writes on its own account. */
  function ErrorResponse(id: string, text: string): Message {
    Message(id, "", "", "", RpcError(-32000, text))
  }
}
