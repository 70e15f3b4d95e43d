/**
 * The key settings panel (src/components/ApiKeySettings.tsx): it accepts a
 * key only when the trimmed input is non-empty and the raw input starts with
 * "AIza", stores the trimmed key through the session vault, and lets the
 * user delete it after confirming.
 */
module ApiKeySettings {
  import opened Types
  import opened Base64
  import opened Crypto

  /**
   * What `String.prototype.trim` removes: the white space and line
   * terminator characters of ECMAScript (sections 12.2 and 12.3 of ECMA-262).
   */
  predicate IsJsWhitespace(c: char) {
    // TAB, VT, FF, SP, NBSP, ZWNBSP and the other space separators
    c == '\t' || c == '\U{B}' || c == '\U{C}' || c == ' ' || c == '\U{A0}' || c == '\U{FEFF}' ||
    c == '\U{1680}' || ('\U{2000}' <= c <= '\U{200A}') || c == '\U{202F}' || c == '\U{205F}' || c == '\U{3000}' ||
    // LF, CR, LS, PS
    c == '\n' || c == '\r' || c == '\U{2028}' || c == '\U{2029}'
  }

  /** `s` without its leading white space. */
  function TrimStart(s: string): (r: string)
    ensures |r| <= |s| && r == s[|s| - |r|..]
    ensures r == "" || !IsJsWhitespace(r[0])
    ensures forall k :: 0 <= k < |s| - |r| ==> IsJsWhitespace(s[k])
  {
    if s != [] && IsJsWhitespace(s[0]) then TrimStart(s[1..]) else s
  }

  /** `s` without its trailing white space. */
  function TrimEnd(s: string): (r: string)
    ensures |r| <= |s| && r == s[..|r|]
    ensures r == "" || !IsJsWhitespace(r[|r| - 1])
    ensures forall k :: |r| <= k < |s| ==> IsJsWhitespace(s[k])
  {
    if s != [] && IsJsWhitespace(s[|s| - 1]) then TrimEnd(s[..|s| - 1]) else s
  }

  /** `String.prototype.trim`. */
  function Trim(s: string): (r: string)
    ensures |r| <= |s|
    ensures (forall k :: 0 <= k < |s| ==> !IsJsWhitespace(s[k])) ==> r == s
  {
    TrimEnd(TrimStart(s))
  }

  /** `String.prototype.startsWith`. */
  predicate StartsWith(s: string, prefix: string)
    ensures StartsWith(s, prefix) <==> |prefix| <= |s| && forall k :: 0 <= k < |prefix| ==> s[k] == prefix[k]
  {
    |prefix| <= |s| && s[..|prefix|] == prefix
  }

  /** The prefix every Google API key starts with. */
  const GoogleKeyPrefix: string := "AIza"

  /** How many leading characters `TrimStart` removes. */
  function Lead(s: string): nat {
    |s| - |TrimStart(s)|
  }

  /**
   * Trimming keeps the contiguous stretch of the input that starts after the
   * leading white space.
   */
  lemma TrimIsSlice(s: string)
    ensures Lead(s) + |Trim(s)| <= |s| && Trim(s) == s[Lead(s)..Lead(s) + |Trim(s)|]
  {
    var t := TrimStart(s);
    var r := TrimEnd(t);
    assert t == s[Lead(s)..];
    assert r == t[..|r|];
    PrefixOfSuffix(s, Lead(s), |r|);
  }

  /** Taking `n` characters of the suffix from `a` is the slice from `a` to `a + n`. */
  lemma PrefixOfSuffix(s: string, a: nat, n: nat)
    requires a + n <= |s|
    ensures s[a..][..n] == s[a..a + n]
  {
  }

  /** What trimming keeps neither starts nor ends with white space. */
  lemma TrimEndsNotWhitespace(s: string)
    ensures Trim(s) == "" || (!IsJsWhitespace(Trim(s)[0]) && !IsJsWhitespace(Trim(s)[|Trim(s)| - 1]))
  {
    var t := TrimStart(s);
    var r := TrimEnd(t);
    if r != "" {
      assert r[0] == t[0];
    }
  }

  /** Trimming removes only white space. */
  lemma TrimRemovesOnlyWhitespace(s: string)
    ensures Lead(s) + |Trim(s)| <= |s|
    ensures forall k :: 0 <= k < Lead(s) ==> IsJsWhitespace(s[k])
    ensures forall k :: Lead(s) + |Trim(s)| <= k < |s| ==> IsJsWhitespace(s[k])
  {
    var t := TrimStart(s);
    var r := TrimEnd(t);
    var lead := Lead(s);
    assert Trim(s) == r;
    forall k | lead + |r| <= k < |s| ensures IsJsWhitespace(s[k]) {
      TrailingWhitespace(s, t, r, lead, k);
    }
  }

  /** One trailing position: what `TrimEnd` dropped from the suffix is white space in the input. */
  lemma TrailingWhitespace(s: string, t: string, r: string, lead: nat, k: nat)
    requires lead <= |s| && t == s[lead..] && r == TrimEnd(t)
    requires lead + |r| <= k < |s|
    ensures IsJsWhitespace(s[k])
  {
    assert s[k] == t[k - lead];
  }

  /** The trim check rejects exactly the inputs made only of white space. */
  lemma TrimEmptyIff(s: string)
    ensures Trim(s) == "" <==> forall k :: 0 <= k < |s| ==> IsJsWhitespace(s[k])
  {
    TrimIsSlice(s);
    TrimRemovesOnlyWhitespace(s);
  }

  /**
   * The prefix is tested on the raw input but the trimmed input is stored;
   * whatever passes the test still starts with "AIza" after trimming, so the
   * stored key does too.
   */
  lemma AcceptedKeyKeepsPrefix(s: string)
    requires StartsWith(s, GoogleKeyPrefix)
    ensures Trim(s) != "" && StartsWith(Trim(s), GoogleKeyPrefix)
  {
    assert s[..4] == GoogleKeyPrefix;
    assert s[0] == 'A' && s[3] == 'a';
    assert TrimStart(s) == s;
    TrimEndKeeps(s, 3);
    var r := TrimEnd(s);
    assert r[..4] == s[..4];
  }

  /** `TrimEnd` keeps every position up to the last non-white-space character. */
  lemma TrimEndKeeps(s: string, k: nat)
    requires k < |s| && !IsJsWhitespace(s[k])
    ensures k < |TrimEnd(s)|
  {
  }

  /** An input with leading white space never passes the prefix test. */
  lemma LeadingWhitespaceRejected(s: string)
    requires s != "" && IsJsWhitespace(s[0])
    ensures !StartsWith(s, GoogleKeyPrefix)
  {
  }

  /**
   * A key that passes both tests and whose trimmed form is made of Latin-1
   * characters reads back, trimmed, from the vault it was saved to.
   */
  lemma AcceptedKeyReadsBack(s: string)
    requires StartsWith(s, GoogleKeyPrefix) && IsLatin1(Trim(s))
    ensures StoredApiKey(Some(Encrypt(Trim(s)))) == Some(Trim(s))
  {
    AcceptedKeyKeepsPrefix(s);
    SaveThenGet(Trim(s));
  }

  /**
   * A key that passes both tests but holds a character beyond Latin-1 cannot
   * be encoded: the panel reports it saved, yet nothing reads back.
   */
  lemma NonLatin1KeyIsLost(s: string)
    requires !IsLatin1(Trim(s))
    ensures StoredApiKey(Some(Encrypt(Trim(s)))) == None
  {
    SaveThenGet(Trim(s));
  }

  datatype MessageKind = Success | Error
  datatype Message = Message(kind: MessageKind, text: string)

  const EmptyKeyMessage: Message := Message(Error, "APIキーを入力してください")
  const InvalidKeyMessage: Message := Message(Error, "有効なGoogle APIキーを入力してください")
  const SavedMessage: Message := Message(Success, "APIキーを保存しました（セッション中のみ有効）")
  const ClearedMessage: Message := Message(Success, "APIキーを削除しました")

  /** How `handleSaveKey` judges an input. */
  function Validate(input: string): (r: Option<Message>)
    ensures r.None? <==> Trim(input) != "" && StartsWith(input, GoogleKeyPrefix)
    ensures r.Some? ==> r.value.kind == Error
  {
    if Trim(input) == "" then Some(EmptyKeyMessage)
    else if !StartsWith(input, GoogleKeyPrefix) then Some(InvalidKeyMessage)
    else None
  }

  class ApiKeySettings {
    /** The session storage the panel saves to. */
    const vault: SessionKeyVault
    /** The text field. */
    var apiKey: string
    var showKey: bool
    var hasStoredKey: bool
    var message: Option<Message>
    /** The arguments of every `onApiKeySet` call, oldest first. */
    var notified: seq<bool>

    constructor(vault: SessionKeyVault)
      ensures this.vault == vault
      ensures apiKey == "" && !showKey && !hasStoredKey && message == None && notified == []
    {
      this.vault := vault;
      apiKey, showKey, hasStoredKey, message, notified := "", false, false, None, [];
    }

    /** The mount effect: a key already in the session marks the panel as set. */
    method Mount()
      modifies this
      ensures Truthy(StoredApiKey(vault.slot)) ==>
        hasStoredKey && apiKey == "" && notified == old(notified) + [true]
      ensures !Truthy(StoredApiKey(vault.slot)) ==>
        hasStoredKey == old(hasStoredKey) && apiKey == old(apiKey) && notified == old(notified)
      ensures showKey == old(showKey) && message == old(message)
    {
      var storedKey := vault.GetApiKey();
      if Truthy(storedKey) {
        hasStoredKey := true;
        apiKey := "";
        notified := notified + [true];
      }
    }

    /** The text field's `onChange`. */
    method SetApiKey(input: string)
      modifies this
      ensures apiKey == input
      ensures showKey == old(showKey) && hasStoredKey == old(hasStoredKey)
      ensures message == old(message) && notified == old(notified)
    {
      apiKey := input;
    }

    /** The eye button. */
    method ToggleShowKey()
      modifies this
      ensures showKey == !old(showKey)
      ensures apiKey == old(apiKey) && hasStoredKey == old(hasStoredKey)
      ensures message == old(message) && notified == old(notified)
    {
      showKey := !showKey;
    }

    /**
     * `handleSaveKey`: a rejected input only sets the error message; an
     * accepted one is saved trimmed, clears the field, and notifies the parent.
     */
    method HandleSaveKey()
      modifies this, vault
      ensures showKey == old(showKey)
      ensures Validate(old(apiKey)).Some? ==>
        message == Validate(old(apiKey)) && vault.slot == old(vault.slot) &&
        apiKey == old(apiKey) && hasStoredKey == old(hasStoredKey) && notified == old(notified)
      ensures Validate(old(apiKey)).None? ==>
        vault.slot == Some(Encrypt(Trim(old(apiKey)))) && hasStoredKey && apiKey == "" &&
        message == Some(SavedMessage) && notified == old(notified) + [true]
    {
      var rejection := Validate(apiKey);
      if rejection.Some? {
        message := rejection;
        return;
      }
      var key := Trim(apiKey);
      Accept(key);
    }

    /** The accepting branch of `handleSaveKey`, given the trimmed key. */
    method Accept(key: string)
      modifies this, vault
      ensures showKey == old(showKey)
      ensures vault.slot == Some(Encrypt(key)) && hasStoredKey && apiKey == "" &&
        message == Some(SavedMessage) && notified == old(notified) + [true]
    {
      vault.SaveApiKey(key);
      hasStoredKey := true;
      apiKey := "";
      message := Some(SavedMessage);
      notified := notified + [true];
    }

    /**
     * `handleClearKey`: `confirmed` is the user's answer to the confirmation
     * dialog. Declining changes nothing.
     */
    method HandleClearKey(confirmed: bool)
      modifies this, vault
      ensures apiKey == old(apiKey) && showKey == old(showKey)
      ensures !confirmed ==>
        vault.slot == old(vault.slot) && hasStoredKey == old(hasStoredKey) &&
        message == old(message) && notified == old(notified)
      ensures confirmed ==>
        vault.slot == None && StoredApiKey(vault.slot) == None && !hasStoredKey &&
        message == Some(ClearedMessage) && notified == old(notified) + [false]
    {
      if confirmed {
        vault.ClearApiKey();
        hasStoredKey := false;
        message := Some(ClearedMessage);
        notified := notified + [false];
      }
    }
  }
}
