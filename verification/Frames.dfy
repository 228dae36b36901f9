/** What passes through a proxied document socket. JSON is abstracted: a text message is its parsed frame. */
module Frames {
  import opened Text

  datatype Frame = Frame(kind: string, rid: Option<string>, payload: string)

  datatype Message = Json(frame: Frame) | Binary(bytes: seq<bv8>)

  const CHAT := "chat:"
  const CHAT_SEND := "chat:send"
  const SESSION_ERROR := "session:error"

  /** A JSON message whose kind belongs to Chat. */
  predicate IsChat(message: Message) {
    message.Json? && CHAT <= message.frame.kind
  }

  /** A map of lists read as empty where it has no entry. */
  function At<K, V>(m: map<K, seq<V>>, key: K): seq<V> {
    if key in m then m[key] else []
  }

  function Append<K, V>(m: map<K, seq<V>>, key: K, value: V): map<K, seq<V>> {
    m[key := At(m, key) + [value]]
  }
}
