/**
 The parts of a Telegram Bot API `Message` that the bot's dispatcher and
 forward handler read. Optional JSON fields are `Option`s; JavaScript
 truthiness of those fields is spelled out by `Truthy` and `TruthyId`.
 */
module Telegram {
  datatype Option<T> = None | Some(value: T)

  /** `msg.chat`, or `msg.forward_from_chat`: `kind` is the chat's `type`. */
  datatype Chat = Chat(id: int, kind: string)

  /** `msg.from` or `msg.forward_from`. */
  datatype User = User(id: int, firstName: string, username: Option<string>)

  /** `msg.voice`; only its presence and file id matter here. */
  datatype Voice = Voice(fileId: string)

  datatype Message = Message(
    messageId: int,
    chat: Option<Chat>,
    from: Option<User>,
    text: Option<string>,
    caption: Option<string>,
    voice: Option<Voice>,
    forwardFrom: Option<User>,
    forwardFromChat: Option<Chat>,
    forwardFromMessageId: Option<int>)

  /** A string field is truthy when present and non-empty. */
  predicate Truthy(s: Option<string>) {
    s.Some? && s.value != ""
  }

  /** A numeric field is truthy when present and non-zero. */
  predicate TruthyId(n: Option<int>) {
    n.Some? && n.value != 0
  }

  /** The dispatcher only looks at messages from a group or a supergroup. */
  predicate InGroup(msg: Message) {
    msg.chat.Some? && (msg.chat.value.kind == "group" || msg.chat.value.kind == "supergroup")
  }

  /** `msg.forward_from || msg.forward_from_chat`. */
  predicate IsForward(msg: Message) {
    msg.forwardFrom.Some? || msg.forwardFromChat.Some?
  }

  /** `msg.text || msg.caption || ''`: the first non-empty of text and caption. */
  function Content(msg: Message): (t: string)
    ensures t == "" <==> !Truthy(msg.text) && !Truthy(msg.caption)
    ensures Truthy(msg.text) ==> t == msg.text.value
    ensures !Truthy(msg.text) && Truthy(msg.caption) ==> t == msg.caption.value
  {
    if Truthy(msg.text) then msg.text.value
    else if Truthy(msg.caption) then msg.caption.value
    else ""
  }
}
