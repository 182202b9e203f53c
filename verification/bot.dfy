/**
 The message handler as one step over the deduplication store. Bot API
 calls become the emitted `Action`; the summary request and its reply are
 folded into `summaryOk` (false when either throws); the SHA-256 digest is
 the parameter `hash`. Messages are handled one after another.
 */
module Bot {
  import opened JsText
  import opened Telegram
  import opened DedupKey
  import opened Links
  import opened DedupStore

  datatype Action =
    | Ignore
      /** Download the voice file and reply with its transcription. */
    | Transcribe(chatId: int, replyTo: int, fileId: string)
      /** Delete the repeated forward and post "<mention> ... <link>". */
    | NotifyDuplicate(chatId: int, deleted: int, mention: string, link: string)
      /** Reply to the forward with the summary of `text`. */
    | SendSummary(chatId: int, replyTo: int, text: string)
      /** `reportError`: send the chat id and content to the error channel. */
    | ReportError(chatId: int, content: string)

  /** The store after the message, what the bot does, and whether
      `saveDedup` runs. */
  datatype Outcome = Outcome(store: Store, action: Action, save: bool)

  /** `String(msg.chat.id)`. */
  function ChatKey(chatId: int): string {
    IntToString(chatId)
  }

  /** `handleForward` from line 76 on: blank content is dropped, anything
      else goes to the store under the chat key `String(chat.id)` and the
      key derived from the untrimmed content. */
  function HandleForward(store: Store, msg: Message, summaryOk: bool, hash: string -> string): (o: Outcome)
    requires msg.chat.Some?
    ensures Blank(Content(msg)) ==> o == Outcome(store, Ignore, false)
    ensures !Blank(Content(msg)) ==>
      o == Decide(store, msg, ChatKey(msg.chat.value.id), Key(msg, Content(msg), hash), Content(msg), summaryOk)
    ensures !Blank(Content(msg)) && summaryOk ==>
      Lookup(o.store, ChatKey(msg.chat.value.id), Key(msg, Content(msg), hash)).Some?
    ensures o.save ==> !Blank(Content(msg)) && summaryOk
    ensures Extends(store, o.store)
  {
    var text := Content(msg);
    if Blank(text) then Outcome(store, Ignore, false)
    else Decide(store, msg, ChatKey(msg.chat.value.id), Key(msg, text, hash), text, summaryOk)
  }

  /** The store part of `handleForward`, and the `reportError` of its caller
      when it throws: either the summary fails, or `msg.from` is missing when
      the mention is built. `ck` is the chat key, `key` the dedup key and
      `text` the content of `msg`. */
  function Decide(store: Store, msg: Message, ck: string, key: string, text: string, summaryOk: bool): (o: Outcome)
    requires msg.chat.Some?
    ensures Lookup(store, ck, key).Some? ==>
      && o.store == store && !o.save
      && (msg.from.Some? ==> o.action == NotifyDuplicate(msg.chat.value.id, msg.messageId,
            Mention(msg.from.value), Link(ck, Lookup(store, ck, key).value)))
      && (msg.from.None? ==> o.action == ReportError(msg.chat.value.id, text))
    ensures Lookup(store, ck, key).None? && summaryOk ==>
      && Lookup(o.store, ck, key) == Some(msg.messageId) && o.save
      && o.action == SendSummary(msg.chat.value.id, msg.messageId, text)
    ensures Lookup(store, ck, key).None? && !summaryOk ==>
      && Lookup(o.store, ck, key).None? && ck in o.store && !o.save
      && o.action == ReportError(msg.chat.value.id, text)
    ensures o.store.Keys == store.Keys + {ck}
    ensures forall k :: k != key ==> Lookup(o.store, ck, k) == Lookup(store, ck, k)
    ensures forall c, k :: c != ck ==> Lookup(o.store, c, k) == Lookup(store, c, k)
    ensures Extends(store, o.store)
  {
    var chatId := msg.chat.value.id;
    var s1 := EnsureChat(store, ck);
    if key in s1[ck] then
      match msg.from
      case None => Outcome(s1, ReportError(chatId, text), false)
      case Some(u) =>
        Outcome(s1, NotifyDuplicate(chatId, msg.messageId, Mention(u), Link(ck, s1[ck][key])), false)
    else if summaryOk then
      RecordAbsentExtends(s1, ck, key, msg.messageId);
      Outcome(Record(s1, ck, key, msg.messageId), SendSummary(chatId, msg.messageId, text), true)
    else
      Outcome(s1, ReportError(chatId, text), false)
  }

  /** The `message` handler: non-group messages are ignored, a voice message
      is transcribed even when it is also a forward, and only a forward
      reaches the deduplication logic. */
  function Step(store: Store, msg: Message, summaryOk: bool, hash: string -> string): (o: Outcome)
    ensures !InGroup(msg) ==> o == Outcome(store, Ignore, false)
    ensures InGroup(msg) && msg.voice.Some? ==>
      o == Outcome(store, Transcribe(msg.chat.value.id, msg.messageId, msg.voice.value.fileId), false)
    ensures InGroup(msg) && msg.voice.None? && !IsForward(msg) ==> o == Outcome(store, Ignore, false)
    ensures InGroup(msg) && msg.voice.None? && IsForward(msg) ==> o == HandleForward(store, msg, summaryOk, hash)
    ensures o.store != store || o.save || o.action.NotifyDuplicate? || o.action.SendSummary? ==>
      InGroup(msg) && msg.voice.None? && IsForward(msg)
    ensures Extends(store, o.store)
  {
    if !InGroup(msg) then Outcome(store, Ignore, false)
    else if msg.voice.Some? then
      Outcome(store, Transcribe(msg.chat.value.id, msg.messageId, msg.voice.value.fileId), false)
    else if IsForward(msg) then HandleForward(store, msg, summaryOk, hash)
    else Outcome(store, Ignore, false)
  }

  /** The store after handling `msgs` in order, the i-th with summary outcome
      `oks[i]`. */
  function Run(store: Store, msgs: seq<Message>, oks: seq<bool>, hash: string -> string): (r: Store)
    requires |oks| == |msgs|
    ensures Extends(store, r)
    decreases |msgs|
  {
    if |msgs| == 0 then store
    else
      var s1 := Step(store, msgs[0], oks[0], hash).store;
      var r := Run(s1, msgs[1..], oks[1..], hash);
      ExtendsTransitive(store, s1, r);
      r
  }

  /** A forward that repeats the key of an earlier forward in the same chat,
      whose summary went out, is deleted and answered with a link to the
      first occurrence; nothing is summarised and the store stays as is. */
  lemma RepeatedForwardIsDuplicate(store: Store, m1: Message, m2: Message, ok2: bool, hash: string -> string)
    requires InGroup(m1) && InGroup(m2) && m1.chat.value.id == m2.chat.value.id
    requires m1.voice.None? && m2.voice.None? && IsForward(m1) && IsForward(m2)
    requires !Blank(Content(m1)) && !Blank(Content(m2))
    requires Key(m1, Content(m1), hash) == Key(m2, Content(m2), hash)
    requires m2.from.Some?
    ensures var ck, key := ChatKey(m1.chat.value.id), Key(m1, Content(m1), hash);
      var o1 := Step(store, m1, true, hash);
      var o2 := Step(o1.store, m2, ok2, hash);
      var firstId := if Lookup(store, ck, key).Some? then Lookup(store, ck, key).value else m1.messageId;
      && o2 == Outcome(o1.store,
           NotifyDuplicate(m2.chat.value.id, m2.messageId, Mention(m2.from.value), Link(ck, firstId)), false)
  {
  }

  /** Once a key is recorded for a chat, no later sequence of messages
      removes it or changes its first-seen id. */
  lemma FirstSeenIsPermanent(store: Store, msgs: seq<Message>, oks: seq<bool>, hash: string -> string,
                             chat: string, key: string)
    requires |oks| == |msgs|
    requires Lookup(store, chat, key).Some?
    ensures Lookup(Run(store, msgs, oks, hash), chat, key) == Lookup(store, chat, key)
  {
  }

  /** A forward into supergroup `-100999` of message `55` of chat `100`,
      with text "hello", by a user with username "forwarder". */
  function ScenarioForward(id: int): Message {
    Message(id, Some(Chat(-100999, "supergroup")), Some(User(42, "Dana", Some("forwarder"))),
            Some("hello"), None, None, None, Some(Chat(100, "channel")), Some(55))
  }

  lemma ScenarioForwardContent(id: int)
    ensures var m := ScenarioForward(id);
      && InGroup(m) && m.voice.None? && IsForward(m)
      && Content(m) == "hello" && !Blank(Content(m))
  {
    assert !Blank("hello") by {
      VisibleStartNotBlank("hello");
    }
  }

  lemma ScenarioForwardKeys(id: int, hash: string -> string)
    ensures var m := ScenarioForward(id);
      && Key(m, Content(m), hash) == "100:55"
      && ChatKey(m.chat.value.id) == "-100999"
  {
    var m := ScenarioForward(id);
    assert HasOrigin(m);
    OriginKeyExample();
    SupergroupLinkExample(7);
  }

  /** Two forwards of origin `100`/`55` into supergroup `-100999`, starting
      from an empty store: the first (message 7) is summarised and recorded
      under `"100:55"`; the second (message 8) is deleted, and the notice
      mentions `@forwarder` and links to `t.me/c/999/7`. */
  lemma SameOriginScenario(hash: string -> string)
    ensures var o1 := Step(map[], ScenarioForward(7), true, hash);
      var o2 := Step(o1.store, ScenarioForward(8), true, hash);
      && o1.action == SendSummary(-100999, 7, "hello") && o1.save
      && Lookup(o1.store, "-100999", "100:55") == Some(7)
      && o2 == Outcome(o1.store, NotifyDuplicate(-100999, 8, "@forwarder", "https://t.me/c/999/7"), false)
  {
    var m1, m2 := ScenarioForward(7), ScenarioForward(8);
    assert Mention(m2.from.value) == "@forwarder";
    assert Link("-100999", 7) == "https://t.me/c/999/7" by {
      SupergroupLinkExample(7);
      assert IntToString(7) == "7";
    }
    ScenarioForwardContent(7);
    ScenarioForwardKeys(7, hash);
    ScenarioForwardContent(8);
    ScenarioForwardKeys(8, hash);
  }
}
