/**
 Derivation of the deduplication key of a forwarded message: the origin
 pair `"<originChatId>:<originMessageId>"` when the forward names its origin
 chat and message, otherwise a digest of the untrimmed text. The digest
 (SHA-256 in hex) is a parameter `hash`; only its determinism is used.
 */
module DedupKey {
  import opened JsText
  import opened Telegram

  /** The template string `${chat}:${message}`. */
  function OriginKey(originChat: int, originMessage: int): string {
    IntToString(originChat) + ":" + IntToString(originMessage)
  }

  /** The forward carries both origin identifiers, both truthy. */
  predicate HasOrigin(msg: Message) {
    msg.forwardFromChat.Some? && TruthyId(msg.forwardFromMessageId)
  }

  /** The key of `msg`, whose content is `text`. */
  function Key(msg: Message, text: string, hash: string -> string): string {
    if HasOrigin(msg) then
      OriginKey(msg.forwardFromChat.value.id, msg.forwardFromMessageId.value)
    else
      hash(text)
  }

  /** The separator cannot occur inside a rendered id, so an origin key
      determines its origin pair. */
  lemma OriginKeyInjective(a: int, b: int, c: int, d: int)
    requires OriginKey(a, b) == OriginKey(c, d)
    ensures a == c && b == d
  {
    var sa, sc := IntToString(a), IntToString(c);
    var k := OriginKey(a, b);
    assert k == sc + ":" + IntToString(d);
    assert k[|sa|] == ':' && k[|sc|] == ':';
    assert |sa| == |sc|;
    assert sa == k[..|sa|] == sc;
    IntToStringInjective(a, c);
    assert IntToString(b) == k[|sa| + 1..] == IntToString(d);
    IntToStringInjective(b, d);
  }

  /** Two forwards that name the same origin get the same key, whatever
      their text; two forwards with origin keys share a key only when they
      name the same origin. */
  lemma OriginKeyIffSameOrigin(m1: Message, m2: Message, t1: string, t2: string, hash: string -> string)
    requires HasOrigin(m1) && HasOrigin(m2)
    ensures Key(m1, t1, hash) == Key(m2, t2, hash) <==>
      m1.forwardFromChat.value.id == m2.forwardFromChat.value.id
      && m1.forwardFromMessageId.value == m2.forwardFromMessageId.value
  {
    if Key(m1, t1, hash) == Key(m2, t2, hash) {
      OriginKeyInjective(m1.forwardFromChat.value.id, m1.forwardFromMessageId.value,
                         m2.forwardFromChat.value.id, m2.forwardFromMessageId.value);
    }
  }

  /** Without origin identifiers the key depends on the text alone, taken
      as is: identical texts give identical keys. */
  lemma TextKeyDeterministic(m1: Message, m2: Message, text: string, hash: string -> string)
    requires !HasOrigin(m1) && !HasOrigin(m2)
    ensures Key(m1, text, hash) == Key(m2, text, hash) == hash(text)
  {
  }

  /** Origin chat `100`, origin message `55`. */
  lemma OriginKeyExample()
    ensures OriginKey(100, 55) == "100:55"
  {
    DigitsStep(0, 5, "0");
    DigitsStep(5, 5, "5");
    DigitsStep(0, 1, "0");
    DigitsStep(1, 0, "1");
    DigitsStep(10, 0, "10");
  }
}
