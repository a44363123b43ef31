/** The name under which a send wrapper is exposed for a message-building
    action: `name.replace(/^create/, 'send')`. */
module Naming {

  const CREATE: string := "create"
  const SEND: string := "send"

  predicate HasPrefix(prefix: string, s: string) {
    |prefix| <= |s| && s[..|prefix|] == prefix
  }

  /** The anchored pattern matches only a leading `create`, and `replace`
      with a regular expression without the `g` flag rewrites at most that
      one match. */
  function SendName(name: string): (r: string)
    ensures r != name <==> HasPrefix(CREATE, name)
    ensures HasPrefix(CREATE, name) ==> HasPrefix(SEND, r) && r[|SEND|..] == name[|CREATE|..]
  {
    if HasPrefix(CREATE, name) then SEND + name[|CREATE|..] else name
  }

  /** The rewrite can be undone: putting `create` back in front of what
      follows `send` gives the action's name. */
  lemma SendNameRoundTrip(name: string)
    requires HasPrefix(CREATE, name)
    ensures CREATE + SendName(name)[|SEND|..] == name
  {
  }

  /** Rewriting twice is rewriting once: a rewritten name starts with `send`
      and so no longer with `create`. */
  lemma SendNameIdempotent(name: string)
    ensures SendName(SendName(name)) == SendName(name)
  {
    var r := SendName(name);
    if HasPrefix(CREATE, name) {
      assert r[..|SEND|] == SEND;
      assert r[|SEND|-1] == 'd' && CREATE[|SEND|-1] == 'a';
      assert !HasPrefix(CREATE, r);
    }
  }

  /** Distinct actions that both start with `create` get distinct send names. */
  lemma SendNameInjectiveOnCreate(a: string, b: string)
    requires HasPrefix(CREATE, a) && HasPrefix(CREATE, b) && a != b
    ensures SendName(a) != SendName(b)
  {
  }

  /** Examples: the usual case, a name without the prefix, and `create`
      elsewhere than at the start. */
  lemma SendNameExamples()
    ensures SendName("createText") == "sendText"
    ensures SendName("getUsers") == "getUsers"
    ensures SendName("recreateText") == "recreateText"
  {
    assert HasPrefix(CREATE, "createText");
    assert "createText"[|CREATE|..] == "Text";
    assert "recreateText"[..|CREATE|][0] != CREATE[0];
    assert "getUsers"[..|CREATE|][0] != CREATE[0];
  }
}
