/**
 The in-memory deduplication store: for every chat key `String(chat.id)`,
 a map from dedup key to the message id of the first occurrence.
 */
module DedupStore {
  import opened Telegram

  type Inner = map<string, int>
  type Store = map<string, Inner>

  /** `dedupStore.get(chat)?.get(key)`. */
  function Lookup(s: Store, chat: string, key: string): Option<int> {
    if chat in s && key in s[chat] then Some(s[chat][key]) else None
  }

  /** The chat's inner map, empty when the chat has none yet. */
  function InnerOf(s: Store, chat: string): Inner {
    if chat in s then s[chat] else map[]
  }

  /** Installs an empty inner map for a chat that has none, so that later
      updates of the chat's map land in the store. */
  function EnsureChat(s: Store, chat: string): (r: Store)
    ensures r.Keys == s.Keys + {chat}
    ensures r[chat] == InnerOf(s, chat)
    ensures forall c :: c in s ==> r[c] == s[c]
  {
    if chat in s then s else s[chat := map[]]
  }

  /** `map.set(key, id)` on the chat's inner map. */
  function Record(s: Store, chat: string, key: string, id: int): (r: Store)
    ensures r.Keys == s.Keys + {chat}
    ensures Lookup(r, chat, key) == Some(id)
    ensures forall k :: k != key ==> Lookup(r, chat, k) == Lookup(s, chat, k)
    ensures forall c, k :: c != chat ==> Lookup(r, c, k) == Lookup(s, c, k)
  {
    s[chat := InnerOf(s, chat)[key := id]]
  }

  /** `s'` keeps every chat of `s` and every first-seen id recorded in it. */
  ghost predicate Extends(s: Store, s': Store) {
    && s.Keys <= s'.Keys
    && forall c, k :: Lookup(s, c, k).Some? ==> Lookup(s', c, k) == Lookup(s, c, k)
  }

  /** Recording a key that is absent overwrites nothing. */
  lemma RecordAbsentExtends(s: Store, chat: string, key: string, id: int)
    requires Lookup(s, chat, key).None?
    ensures Extends(s, Record(s, chat, key, id))
  {
  }

  lemma ExtendsTransitive(s1: Store, s2: Store, s3: Store)
    requires Extends(s1, s2) && Extends(s2, s3)
    ensures Extends(s1, s3)
  {
  }
}
