# Forward deduplication in a Telegram group bot

A Dafny model of the decision logic in `index.js`. This is the Telegram
group bot that transcribes voice messages and summarises forwarded text.
The model covers these parts of it:

- the `message` handler's dispatch. Messages outside a group or supergroup
  are ignored. A voice message is transcribed. Only a forward reaches
  `handleForward`.
- `handleForward`:
  - the content is `text || caption || ''`, and blank content is dropped;
  - the dedup key is `"<originChatId>:<originMessageId>"` when both origin
    fields are truthy, otherwise the SHA-256 digest of the untrimmed content;
  - the per-chat store `Map<String(chat.id), Map<dedupKey, firstMessageId>>`
    is consulted. A repeat is deleted and answered with a mention of the
    forwarder and a `https://t.me/c/<linkId>/<firstId>` link. A new key is
    recorded after its summary has been sent.
- the start-up load of `forward_dedup.json` and `saveDedup`.

Modules, one per file:

- `JsText` (`js_text.dfy`): the JavaScript built-ins the code relies on.
  These are `String(n)`, `trim`, `startsWith`, and `replace` with a string
  pattern.
- `Telegram` (`telegram.dfy`): the message fields that are read, plus
  JavaScript truthiness.
- `DedupKey` (`dedup_key.dfy`): key derivation.
- `Links` (`links.dfy`): the link id, the link and the mention.
- `DedupStore` (`dedup_store.dfy`): the nested map and its lookup and insert.
- `Persistence` (`persistence.dfy`): load and save.
- `Bot` (`bot.dfy`): the handler as a pure step
  `Step(store, msg, summaryOk, hash) -> Outcome(store', action, save)`, and
  `Run` over a sequence of messages.

Collaborators are abstracted as follows:

- Bot API calls are the emitted `Action` value.
- The OpenAI summary request and its reply are the boolean `summaryOk`,
  which is false when either throws.
- SHA-256 is a function parameter `hash`. Only its determinism is used, not
  its injectivity.
- The JSON file is `Persisted`: either no file, unparsable content, or the
  entries that `Object.entries` yields.

Behaviour as written, which the model follows:

- The link of a duplicate notice ends in the id of the first forward *in
  this group*, which is the value stored under the key. It is not the id of
  the origin message. For the scenario of supergroup `-100999`, origin
  `100`/`55`, first forward 7 and repeat 8, the link is
  `https://t.me/c/999/7` (`Bot.SameOriginScenario`).
- The message that is deleted is the repeat itself, `msg.message_id`.
- `map.set` would overwrite an existing key. It is reached only when the key
  is absent, so with sequential handling a first-seen id is never replaced
  (`Bot.FirstSeenIsPermanent`).
- When `msg.from` is missing on the duplicate path, building the mention
  throws a TypeError. The caller then reports the error, and the store is
  unchanged: the chat's map already holds the key.
- When the summary fails for a new key, the error is reported and the key
  stays unrecorded. If the chat had no map yet, the empty map created for it
  stays in the store.
- The hash covers the untrimmed content. So `"hello"` and `" hello"` get
  different keys.
- The link id of a chat key is built by the rule below. It is applied to
  basic groups too, although `t.me/c/` links only resolve for supergroups
  and channels.
  - A key starting with `-100` loses those four characters, so `-100` itself
    yields an empty id. This also hits a basic group whose id begins with
    `-100`: `-1001` gives `1` (`Links.BasicGroupPrefixExample`).
  - Any other key loses its first `-`, so other basic groups get their id
    without the sign.

## Model

| member | source | states |
|---|---|---|
| JsText.NatToString | index.js:82 | the decimal rendering of a number is non-empty, all digits, one digit exactly below 10, with no leading zero, and its digits read in base ten denote the number |
| JsText.IntToString | index.js:87 | `String(id)` begins with `-` exactly for negative ids; every other character is a digit, and those digits read in base ten denote the absolute value of the id |
| JsText.NatToStringInjective | index.js:82 | distinct naturals render to distinct digit strings |
| JsText.IntToStringInjective | index.js:87 | `String` on integer ids is injective, so a chat key names one chat |
| JsText.IndexOf | index.js:99 | the position found holds the searched character and no earlier position does; not found is the length |
| JsText.RemoveFirst | index.js:99 | `replace('-', '')` removes exactly the first `-`: the text before it and the text after it are kept, and a string without `-` is returned unchanged |
| JsText.TrimStart | index.js:77 | the result is a suffix of the input, everything dropped is whitespace, and it does not start with whitespace |
| JsText.TrimEnd | index.js:77 | the result is a prefix of the input, everything dropped is whitespace, and it does not end with whitespace |
| JsText.Blank | index.js:77 | `!text.trim()`; a definition without a contract of its own, characterised by `JsText.BlankIffAllWhitespace` (blank exactly when all whitespace) and `JsText.VisibleStartNotBlank` |
| JsText.BlankIffAllWhitespace | index.js:77 | `!text.trim()` holds exactly when every character of the text is whitespace |
| JsText.VisibleStartNotBlank | index.js:77 | content that starts with a visible character is never dropped as blank |
| Telegram.Content | index.js:76 | the content is the text when it is non-empty, else the non-empty caption, else `''`; it is empty exactly when both are missing or empty |
| DedupKey.OriginKeyInjective | index.js:82 | the `:` separator cannot occur in a rendered id, so an origin key determines its origin chat and origin message |
| DedupKey.Key | index.js:80-85 | the key derivation; a definition without a contract of its own, characterised by `DedupKey.OriginKeyIffSameOrigin` (origin keys) and `DedupKey.TextKeyDeterministic` (digest keys) |
| DedupKey.OriginKeyIffSameOrigin | index.js:81-82 | two forwards that carry both origin fields share a key if and only if they name the same origin chat and message, whatever their text |
| DedupKey.TextKeyDeterministic | index.js:83-85 | without both origin fields the key is the digest of the content alone, so identical texts give identical keys |
| DedupKey.OriginKeyExample | index.js:82 | origin chat 100 and origin message 55 give the key `"100:55"` |
| Links.Mention | index.js:101 | the mention starts with `@` exactly when the username is truthy, and then the rest is the username; otherwise it is a Markdown link `[...](...)` |
| Links.MentionIdentifiesUser | index.js:101 | for one first name, equal mentions mean the same username, or no username and the same user id |
| Links.LinkId | index.js:97-99 | the chat part of the link; a definition without a contract of its own, characterised by `Links.LinkIdOfChatId` for every chat id |
| Links.Link | index.js:100 | `https://t.me/c/${chatLinkId}/${firstId}`; a definition without a contract of its own, characterised by `Links.LinkDeterminesFirstId` and `Links.SupergroupLinkExample` |
| Links.LinkIdOfChatId | index.js:97-99 | non-negative chat ids pass through, `-100` ids lose that prefix, other negative ids lose their sign, and the link id never holds a minus sign |
| Links.LinkDeterminesFirstId | index.js:100 | within one chat, the link's last segment determines the first-seen message id |
| Links.BasicGroupPrefixExample | index.js:97-99 | the basic-group id `-1001` starts with `-100` and so gets the link id `1` |
| Links.SupergroupLinkExample | index.js:97-100 | chat `-100999` has the key `"-100999"` and links of the form `https://t.me/c/999/<firstId>` |
| DedupStore.EnsureChat | index.js:88-92 | afterwards the chat has an inner map, which is empty if it was new; other chats are unchanged |
| DedupStore.Lookup | index.js:94-95 | `map.has(key)` and `map.get(key)` on the chat's map; a definition without a contract of its own, used by the contracts of `DedupStore.Record`, `Bot.Decide` and `DedupStore.Extends` |
| DedupStore.Record | index.js:117 | after `map.set` the key maps to the new id; no other key of that chat and no other chat changes |
| DedupStore.RecordAbsentExtends | index.js:94-117 | recording a key that was absent removes and overwrites no first-seen record |
| Persistence.KeyIndex | index.js:29-30 | every key of a list of entries comes from one of its entries |
| Persistence.FromEntries | index.js:30 | the map built from entries has exactly the entries' keys |
| Persistence.FromEntriesLastWins | index.js:29-31 | a key's value in the map is the value of its last entry |
| Persistence.FromUniqueEntries | index.js:30 | entries with distinct keys that agree with a map on its keys rebuild exactly that map |
| Persistence.Inflate | index.js:29-31 | every chat entry of the file becomes that chat's inner map, in order, with the same keys |
| Persistence.Load | index.js:27-35 | a missing or unparsable file gives the empty store; otherwise the store has exactly the chats of the file |
| Persistence.LoadLastWins | index.js:29-31 | after loading, a chat holds the entries of its last occurrence in the file |
| Persistence.ToEntries | index.js:40 | `Object.fromEntries` of a map lists every key once, and building a map from it gives back the map |
| Persistence.Save | index.js:37-43 | `saveDedup` writes each chat once, empty chats included, and loading what it wrote reproduces the store |
| Bot.HandleForward | index.js:75-85 | blank content emits nothing and changes nothing; other content is decided under `String(chat.id)` with the origin or digest key of the untrimmed content; after a non-blank forward whose summary succeeds, its key is present; the store is saved only then; no first-seen record is lost |
| Bot.ChatKey | index.js:87 | `String(msg.chat.id)`; a definition without a contract of its own, characterised by `JsText.IntToString` and `JsText.IntToStringInjective` (one key per chat) |
| Bot.Decide | index.js:87-118 | repeat: the store is unchanged, the repeat is deleted, and the link names the stored first id (an error report if there is no sender). New key with summary: the key maps to this message id and the store is saved. New key with a failed summary: the key stays absent and the chat's map exists. No other key or chat changes |
| Bot.Step | index.js:45-59 | non-group messages are ignored with the store unchanged; a voice message is transcribed even if it is a forward; a non-voice forward in a group is handled by `handleForward`; a non-forward is ignored; only a forward in a group changes the store, saves or emits a notice or summary; no first-seen record is lost |
| Bot.Run | index.js:45-59 | handling any sequence of messages in order keeps every chat and every first-seen record of the starting store |
| Bot.RepeatedForwardIsDuplicate | index.js:94-117 | after a forward whose summary went out, a later non-blank forward with the same key in the same group is deleted and linked to the first id, and the store is unchanged |
| Bot.FirstSeenIsPermanent | index.js:88-117 | once recorded, a chat's key keeps its first-seen id through any later sequence of messages |
| Bot.SameOriginScenario | index.js:75-118 | two forwards of origin `100`/`55` into supergroup `-100999` starting from an empty store: message 7 is summarised and recorded under `"100:55"`; message 8 is deleted and answered with `@forwarder` and `https://t.me/c/999/7` |

## Left out

- Telegram Bot API calls (`sendMessage`, `deleteMessage`, `downloadFile`, polling) are network I/O. They appear only as the emitted `Action`. Failures of the delete or the notice on the duplicate path are not modelled.
- The OpenAI transcription and summary are external services. Transcription is the `Transcribe` action, and its failure is not modelled. The summary outcome is the input `summaryOk`. The summary text itself is not modelled; `SendSummary` carries the content it summarises.
- SHA-256 is the parameter `hash`. The model assumes nothing about it beyond being a function.
- The JSON text format and the `fs` reads and writes are abstracted to `Persisted` and to the entry lists. A write failure of `saveDedup` after `map.set` is not modelled. Neither are the partial load when an inner value is `null`, or inner values that are not objects; both need JSON detail.
- Ids are unbounded integers. `String` on numbers outside JavaScript's safe-integer range, which may use exponent notation, is not modelled. Telegram ids fit in that range.
- The environment checks and `process.exit` at start-up are configuration plumbing.
- `reportError` only formats a text and sends it to the error channel. It is the `ReportError` action carrying the chat id and the content.
- The lookup-then-record race across `await` points is about concurrency. The model handles messages one at a time.
- Links.Mention: the contract fixes the `@username` form exactly but states only the bracket shape of the Markdown form. `Links.MentionIdentifiesUser` adds that the user id in it determines the user.
- The prompt wording and the Hebrew notice text are literal constants. The notice is modelled as its mention and its link.
