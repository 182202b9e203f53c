/**
 The two strings of the duplicate notice: the `t.me/c/...` link to the
 first occurrence and the mention of the forwarder.
 */
module Links {
  import opened JsText
  import opened Telegram

  const LinkPrefix: string := "https://t.me/c/"

  /** The chat part of a `t.me/c/` link: a chat key starting with `-100`
      loses those four characters, any other loses its first `-`. */
  function LinkId(chatKey: string): string {
    if StartsWith(chatKey, "-100") then chatKey[4..] else RemoveFirst(chatKey, '-')
  }

  /** `https://t.me/c/${chatLinkId}/${firstId}`. */
  function Link(chatKey: string, firstId: int): string {
    LinkPrefix + LinkId(chatKey) + "/" + IntToString(firstId)
  }

  /** `@username` when the username is truthy, otherwise a Markdown link
      `[first_name](tg://user?id=<id>)`. */
  function Mention(u: User): (r: string)
    ensures |r| >= 1
    ensures r[0] == '@' <==> Truthy(u.username)
    ensures r[0] == '@' ==> r[1..] == u.username.value
    ensures r[0] != '@' ==> r[0] == '[' && r[|r| - 1] == ')'
  {
    if Truthy(u.username) then "@" + u.username.value
    else "[" + u.firstName + "](tg://user?id=" + IntToString(u.id) + ")"
  }

  /** Users with the same first name get the same mention only when they
      have the same truthy username, or both lack one and share an id. */
  lemma MentionIdentifiesUser(u1: User, u2: User)
    requires Mention(u1) == Mention(u2) && u1.firstName == u2.firstName
    ensures Truthy(u1.username) <==> Truthy(u2.username)
    ensures Truthy(u1.username) ==> u1.username.value == u2.username.value
    ensures !Truthy(u1.username) ==> u1.id == u2.id
  {
    if !Truthy(u1.username) {
      var m := Mention(u1);
      var p := "[" + u1.firstName + "](tg://user?id=";
      assert m == p + IntToString(u1.id) + ")";
      assert m == p + IntToString(u2.id) + ")";
      assert m[|p|..|m| - 1] == IntToString(u1.id);
      assert m[|p|..|m| - 1] == IntToString(u2.id);
      IntToStringInjective(u1.id, u2.id);
    }
  }

  /** What `LinkId` makes of the key `String(id)` of a chat: positive ids pass
      through, `-100` ids lose that prefix, other negative ids lose their
      sign; the result never holds a minus sign. */
  lemma LinkIdOfChatId(id: int)
    ensures var s := IntToString(id);
      && (id >= 0 ==> LinkId(s) == s)
      && (id < 0 && !StartsWith(s, "-100") ==> LinkId(s) == NatToString(-id))
      && (StartsWith(s, "-100") ==> "-100" + LinkId(s) == s)
      && forall i :: 0 <= i < |LinkId(s)| ==> IsDigit(LinkId(s)[i])
  {
    var s := IntToString(id);
    if StartsWith(s, "-100") {
      assert s == s[..4] + s[4..];
    } else if id < 0 {
      assert s == "-" + NatToString(-id);
    } else {
      assert '-' !in s by {
        forall i | 0 <= i < |s| ensures s[i] != '-' {
          assert IsDigit(s[i]);
        }
      }
    }
  }

  /** Within one chat, the link names the first occurrence unambiguously. */
  lemma LinkDeterminesFirstId(chatKey: string, a: int, b: int)
    requires Link(chatKey, a) == Link(chatKey, b)
    ensures a == b
  {
    var p := LinkPrefix + LinkId(chatKey) + "/";
    assert Link(chatKey, a)[|p|..] == IntToString(a);
    assert Link(chatKey, b)[|p|..] == IntToString(b);
    IntToStringInjective(a, b);
  }

  /** `String(-100999)`, built one digit at a time. */
  lemma RenderSupergroupId()
    ensures IntToString(-100999) == "-100999"
  {
    DigitsStep(0, 1, "0");
    DigitsStep(1, 0, "1");
    DigitsStep(10, 0, "10");
    DigitsStep(100, 9, "100");
    DigitsStep(1009, 9, "1009");
    DigitsStep(10099, 9, "10099");
  }

  /** The supergroup `-100999` of `Bot.SameOriginScenario`: links point at
      `t.me/c/999/`. */
  lemma SupergroupLinkExample(firstId: int)
    ensures IntToString(-100999) == "-100999"
    ensures Link(IntToString(-100999), firstId) == "https://t.me/c/999/" + IntToString(firstId)
  {
    RenderSupergroupId();
    assert LinkId("-100999") == "999" by {
      assert StartsWith("-100999", "-100");
    }
  }

  /** `String(-1001)`, built one digit at a time. */
  lemma RenderBasicGroupId()
    ensures IntToString(-1001) == "-1001"
  {
    DigitsStep(0, 1, "0");
    DigitsStep(1, 0, "1");
    DigitsStep(10, 0, "10");
    DigitsStep(100, 1, "100");
  }

  /** A basic group whose id happens to begin with `-100` loses four
      characters, not only its sign. */
  lemma BasicGroupPrefixExample()
    ensures IntToString(-1001) == "-1001"
    ensures LinkId(IntToString(-1001)) == "1"
  {
    RenderBasicGroupId();
    assert StartsWith("-1001", "-100");
  }
}
