/** The per-session message quota and the credential selectors of
    lib/db/api-keys.ts. The browser's localStorage entries are the fields of a
    BrowserSession; `typeof window === 'undefined'` is its constant `onServer`;
    the environment variables are an Env value. */
module ApiKeys {
  import opened Base

  /** Messages a user may send with the app-provided keys. */
  const MaxFreeMessages: nat := 10

  /** The four process.env variables the selectors read. */
  datatype Env = Env(
    openAIServerKey: Option<string>,     // OPENAI_API_KEY
    openAIPublicKey: Option<string>,     // NEXT_PUBLIC_OPENAI_API_KEY
    anthropicServerKey: Option<string>,  // ANTHROPIC_API_KEY
    anthropicPublicKey: Option<string>)  // NEXT_PUBLIC_ANTHROPIC_API_KEY

  /** The browser-side choice both providers make: while the free tier lasts,
      or whenever no user key is stored, `publicKey || userKey`; past the limit
      with a user key, the user key. There is no refusal outcome. */
  function SelectClientKey(count: int, publicKey: Option<string>, userKey: Option<string>): (r: Option<string>)
    ensures r == publicKey || r == userKey
    ensures Truthy(publicKey) || Truthy(userKey) ==> Truthy(r)
    ensures count >= MaxFreeMessages && Truthy(userKey) ==> r == userKey
    ensures count < MaxFreeMessages && Truthy(publicKey) ==> r == publicKey
    ensures !Truthy(userKey) && Truthy(publicKey) ==> r == publicKey
    ensures !Truthy(publicKey) ==> r == userKey
  {
    if count < MaxFreeMessages || !Truthy(userKey) then
      (if Truthy(publicKey) then publicKey else userKey)
    else
      userKey
  }

  /** The stored counter and user keys of one browser session. */
  class BrowserSession {
    const onServer: bool
    var storedCount: Option<nat>      // localStorage 'userMessageCount'
    var openAIKey: Option<string>     // localStorage 'openaiApiKey'
    var anthropicKey: Option<string>  // localStorage 'anthropicApiKey'

    constructor (onServer: bool)
      ensures this.onServer == onServer
      ensures storedCount == None && openAIKey == None && anthropicKey == None
    {
      this.onServer := onServer;
      storedCount, openAIKey, anthropicKey := None, None, None;
    }

    /** getUserMessageCount: 0 on the server and when nothing is stored. */
    function MessageCount(): (n: nat)
      reads this
      ensures onServer || storedCount == None ==> n == 0
      ensures !onServer && storedCount.Some? ==> n == storedCount.value
    {
      if onServer then 0
      else match storedCount
        case None => 0
        case Some(c) => c
    }

    /** incrementUserMessageCount: one more message, nothing on the server. */
    method IncrementMessageCount()
      modifies this
      ensures onServer ==> storedCount == old(storedCount)
      ensures !onServer ==> storedCount == Some(old(MessageCount()) + 1)
      ensures !onServer ==> MessageCount() == old(MessageCount()) + 1
      ensures openAIKey == old(openAIKey) && anthropicKey == old(anthropicKey)
    {
      if onServer {
        return;
      }
      var current := MessageCount();
      storedCount := Some(current + 1);
    }

    /** resetUserMessageCount: the count reads 0 afterwards. */
    method ResetMessageCount()
      modifies this
      ensures onServer ==> storedCount == old(storedCount)
      ensures !onServer ==> storedCount == Some(0)
      ensures MessageCount() == 0 || onServer
      ensures openAIKey == old(openAIKey) && anthropicKey == old(anthropicKey)
    {
      if onServer {
        return;
      }
      storedCount := Some(0);
    }

    /** setOpenAIApiKey: stores the user's OpenAI key in the browser. */
    method SetOpenAIApiKey(key: string)
      modifies this
      ensures openAIKey == if onServer then old(openAIKey) else Some(key)
      ensures storedCount == old(storedCount) && anthropicKey == old(anthropicKey)
    {
      if !onServer {
        openAIKey := Some(key);
      }
    }

    /** setAnthropicApiKey: stores the user's Anthropic key in the browser. */
    method SetAnthropicApiKey(key: string)
      modifies this
      ensures anthropicKey == if onServer then old(anthropicKey) else Some(key)
      ensures storedCount == old(storedCount) && openAIKey == old(openAIKey)
    {
      if !onServer {
        anthropicKey := Some(key);
      }
    }

    /** requiresUserApiKeys: the free messages are used up. */
    function RequiresUserApiKeys(): (b: bool)
      reads this
      ensures onServer ==> !b
      ensures b <==> !onServer && storedCount.Some? && storedCount.value >= MaxFreeMessages
    {
      MessageCount() >= MaxFreeMessages
    }

    /** getOpenAIApiKey: the server reads its private variable as is; the
        browser applies SelectClientKey to the public variable and the stored key. */
    function OpenAIApiKey(env: Env): (r: Option<string>)
      reads this
      ensures onServer ==> r == env.openAIServerKey
      ensures !onServer ==> r == env.openAIPublicKey || r == openAIKey
      ensures !onServer && RequiresUserApiKeys() && Truthy(openAIKey) ==> r == openAIKey
      ensures !onServer && !RequiresUserApiKeys() && Truthy(env.openAIPublicKey) ==> r == env.openAIPublicKey
      ensures !onServer && !Truthy(openAIKey) && Truthy(env.openAIPublicKey) ==> r == env.openAIPublicKey
      ensures !onServer && !Truthy(env.openAIPublicKey) ==> r == openAIKey
    {
      if onServer then env.openAIServerKey
      else SelectClientKey(MessageCount(), env.openAIPublicKey, openAIKey)
    }

    /** getAnthropicApiKey: the server answers `ANTHROPIC_API_KEY || null`; the
        browser applies the same rule as for OpenAI. */
    function AnthropicApiKey(env: Env): (r: Option<string>)
      reads this
      ensures onServer ==> r == (if Truthy(env.anthropicServerKey) then env.anthropicServerKey else None)
      ensures !onServer ==> r == env.anthropicPublicKey || r == anthropicKey
      ensures !onServer && RequiresUserApiKeys() && Truthy(anthropicKey) ==> r == anthropicKey
      ensures !onServer && !RequiresUserApiKeys() && Truthy(env.anthropicPublicKey) ==> r == env.anthropicPublicKey
      ensures !onServer && !Truthy(anthropicKey) && Truthy(env.anthropicPublicKey) ==> r == env.anthropicPublicKey
      ensures !onServer && !Truthy(env.anthropicPublicKey) ==> r == anthropicKey
    {
      if onServer then (if Truthy(env.anthropicServerKey) then env.anthropicServerKey else None)
      else SelectClientKey(MessageCount(), env.anthropicPublicKey, anthropicKey)
    }
  }

  /** Past the limit, a user key beats a distinct configured shared key exactly
      when the free messages are used up: the selector and requiresUserApiKeys
      apply the same threshold. */
  lemma UserKeyWinsIffLimitReached(count: int, shared: string, user: string)
    requires shared != "" && user != "" && shared != user
    ensures SelectClientKey(count, Some(shared), Some(user)) == Some(user) <==> count >= MaxFreeMessages
  {
  }

  /** The OpenAI and Anthropic browser selectors are the same rule: given the
      same public key and the same stored key they answer alike. */
  lemma ClientSelectorsAgree(s: BrowserSession, env: Env)
    requires !s.onServer
    requires env.openAIPublicKey == env.anthropicPublicKey && s.openAIKey == s.anthropicKey
    ensures s.OpenAIApiKey(env) == s.AnthropicApiKey(env)
  {
  }

  /** A fresh browser session with `userKey` stored: with nine messages
      recorded the shared key is chosen; with ten recorded the user's key is
      chosen when there is one and otherwise, with no refusal, still the
      shared key. */
  method KeyAtNineAndTenMessages(env: Env, userKey: string) returns (atNine: Option<string>, atTen: Option<string>)
    ensures Truthy(env.openAIPublicKey) ==> atNine == env.openAIPublicKey
    ensures userKey != "" ==> atTen == Some(userKey)
    ensures userKey == "" && Truthy(env.openAIPublicKey) ==> atTen == env.openAIPublicKey
  {
    var s := new BrowserSession(false);
    s.SetOpenAIApiKey(userKey);
    s.IncrementMessageCount();
    s.IncrementMessageCount();
    s.IncrementMessageCount();
    s.IncrementMessageCount();
    s.IncrementMessageCount();
    s.IncrementMessageCount();
    s.IncrementMessageCount();
    s.IncrementMessageCount();
    s.IncrementMessageCount();
    assert s.MessageCount() == 9;
    atNine := s.OpenAIApiKey(env);
    s.IncrementMessageCount();
    assert s.RequiresUserApiKeys();
    atTen := s.OpenAIApiKey(env);
  }
}
