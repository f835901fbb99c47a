/** The wire message envelope shared by both engines. */
module Protocol {
  import opened Wrappers
  import opened JsValues
  import opened MessageTypes

  /** `{ id?, type, payload? }`; `typ` is the raw `type` string, which a peer may get wrong. */
  datatype Message = Message(id: Option<string>, typ: string, payload: JsValue)

  /** The kind a message names, if any. */
  function KindOf(m: Message): Option<MessageKind> {
    FromString(m.typ)
  }
}
