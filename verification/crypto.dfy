/**
 * The API-key obfuscation utility (src/utils/crypto.ts): `encryptApiKey`
 * Base64-encodes the key, XORs every character with the fixed key string
 * `EncryptionKey` (cycled), and Base64-encodes the result; `decryptApiKey`
 * undoes the three steps. Any exception thrown inside either one is caught and
 * turned into the empty string. The transform is an obfuscation, not a cipher.
 *
 * The session storage slot the utility writes is the `slot` field of
 * `SessionKeyVault`.
 */
module Crypto {
  import opened Types
  import opened Base64

  /** The fixed XOR key. */
  const EncryptionKey: string := "storybook-creator-2024"

  /** The session-storage key under which the obfuscated API key is kept. */
  const ApiKeyStorageKey: string := "gemini-api-key-encrypted"

  /** Bitwise exclusive or of two non-negative integers, one bit at a time. */
  function Xor(a: nat, b: nat): (r: nat)
    ensures r == 0 <==> a == b
    decreases a + b
  {
    if a == 0 && b == 0 then 0
    else 2 * Xor(a / 2, b / 2) + (a % 2 + b % 2) % 2
  }

  /** The lowest bit of `Xor(a, b)` and the bits above it. */
  lemma XorDigits(a: nat, b: nat)
    ensures Xor(a, b) % 2 == (a % 2 + b % 2) % 2
    ensures Xor(a, b) / 2 == Xor(a / 2, b / 2)
  {
  }

  /** A number is determined by its lowest bit and the bits above it. */
  lemma SameBits(x: nat, y: nat)
    requires x / 2 == y / 2 && x % 2 == y % 2
    ensures x == y
  {
  }

  /** Adding the same bit twice modulo 2 cancels. */
  lemma BitCancels(p: nat, q: nat)
    requires p < 2 && q < 2
    ensures ((p + q) % 2 + q) % 2 == p
  {
  }

  /** XOR with the same key twice gives back the input. */
  lemma {:induction false} XorInvolution(a: nat, b: nat)
    ensures Xor(Xor(a, b), b) == a
    decreases a + b
  {
    if a == 0 && b == 0 {
      assert Xor(a, b) == 0;
    } else {
      var x := Xor(a, b);
      XorDigits(a, b);
      XorDigits(x, b);
      XorInvolution(a / 2, b / 2);
      BitCancels(a % 2, b % 2);
      SameBits(Xor(x, b), a);
    }
  }

  function Pow2(n: nat): (p: nat)
    ensures p >= 1
  {
    if n == 0 then 1 else 2 * Pow2(n - 1)
  }

  lemma Pow2Values()
    ensures Pow2(7) == 0x80 && Pow2(8) == 0x100
  {
    assert Pow2(1) == 2;
    assert Pow2(2) == 4;
    assert Pow2(3) == 8;
    assert Pow2(4) == 16;
    assert Pow2(5) == 32;
    assert Pow2(6) == 64;
  }

  /** XOR of two `n`-bit numbers is an `n`-bit number. */
  lemma {:induction false} XorBelow(a: nat, b: nat, n: nat)
    requires a < Pow2(n) && b < Pow2(n)
    ensures Xor(a, b) < Pow2(n)
  {
    if n == 0 {
      assert a == 0 && b == 0;
    } else if !(a == 0 && b == 0) {
      XorBelow(a / 2, b / 2, n - 1);
    }
  }

  /** The code of the key character used at position `i`. */
  function KeyCode(i: nat): (k: nat)
    ensures k < 0x80
  {
    EncryptionKey[i % |EncryptionKey|] as int
  }

  /** One step of the loop: the character at position `i` XORed with the key. */
  function XorChar(c: char, i: nat): (r: char)
    requires c as int < 0x100
    ensures r as int == Xor(c as int, KeyCode(i))
    ensures r as int < 0x100
    ensures c as int < 0x80 ==> r as int < 0x80
  {
    Pow2Values();
    XorBelow(c as int, KeyCode(i), 8);
    if c as int < 0x80 then XorBelow(c as int, KeyCode(i), 7); Xor(c as int, KeyCode(i)) as char
    else Xor(c as int, KeyCode(i)) as char
  }

  /** The whole XOR pass over a Latin-1 string. */
  function XorWithKey(s: string): (r: string)
    requires IsLatin1(s)
    ensures |r| == |s| && IsLatin1(r)
    ensures IsAscii(s) ==> IsAscii(r)
  {
    seq(|s|, i requires 0 <= i < |s| => XorChar(s[i], i))
  }

  /** The XOR pass is its own inverse. */
  lemma XorWithKeyInvolution(s: string)
    requires IsLatin1(s)
    ensures XorWithKey(XorWithKey(s)) == s
  {
    var x := XorWithKey(s);
    forall i | 0 <= i < |s| ensures XorWithKey(x)[i] == s[i] {
      XorInvolution(s[i] as int, KeyCode(i));
    }
  }

  /** What `encryptApiKey` returns. */
  function Encrypt(apiKey: string): (r: string)
    ensures IsAscii(r) && |r| % 4 == 0
  {
    match Btoa(apiKey)
    case None => ""
    case Some(encoded) =>
      match Btoa(XorWithKey(encoded))
      case None => ""
      case Some(result) => result
  }

  /** What `decryptApiKey` returns. */
  function Decrypt(encrypted: string): (r: string)
    ensures IsLatin1(r)
  {
    match Atob(encrypted)
    case None => ""
    case Some(decoded) =>
      match Atob(XorWithKey(decoded))
      case None => ""
      case Some(result) => result
  }

  /**
   * The character loop both `encryptApiKey` and `decryptApiKey` run: each
   * character XORed with the key character at the same position modulo the
   * key's length.
   */
  method XorLoop(s: string) returns (result: string)
    requires IsLatin1(s)
    ensures result == XorWithKey(s)
  {
    result := "";
    for i := 0 to |s|
      invariant |result| == i
      invariant forall j :: 0 <= j < i ==> result[j] == XorChar(s[j], j)
    {
      result := result + [XorChar(s[i], i)];
    }
  }

  /** `encryptApiKey`: Base64, the XOR loop, Base64 again; `""` when an encoding step throws. */
  method EncryptApiKey(apiKey: string) returns (r: string)
    ensures r == Encrypt(apiKey)
  {
    var encoded := Btoa(apiKey);
    if encoded.None? {
      return "";
    }
    var result := XorLoop(encoded.value);
    var outer := Btoa(result);
    if outer.None? {
      return "";
    }
    r := outer.value;
  }

  /** `decryptApiKey`: Base64 decoding, the XOR loop, Base64 decoding again; `""` when a decoding step throws. */
  method DecryptApiKey(encrypted: string) returns (r: string)
    ensures r == Decrypt(encrypted)
  {
    var decoded := Atob(encrypted);
    if decoded.None? {
      return "";
    }
    var result := XorLoop(decoded.value);
    var inner := Atob(result);
    if inner.None? {
      return "";
    }
    r := inner.value;
  }

  lemma EncodeEmpty(s: string)
    requires IsLatin1(s)
    ensures Encode(s) == "" <==> s == ""
  {
  }

  /** The second `btoa` never throws: its input is ASCII. */
  lemma OuterBtoaSucceeds(apiKey: string)
    requires IsLatin1(apiKey)
    ensures Btoa(XorWithKey(Encode(apiKey))).Some?
    ensures Encrypt(apiKey) == Encode(XorWithKey(Encode(apiKey)))
  {
  }

  /** `encryptApiKey` gives `''` exactly for the empty key and for keys `btoa` rejects. */
  lemma EncryptEmptyIff(apiKey: string)
    ensures Encrypt(apiKey) == "" <==> (apiKey == "" || !IsLatin1(apiKey))
  {
    if IsLatin1(apiKey) {
      OuterBtoaSucceeds(apiKey);
      EncodeEmpty(apiKey);
      EncodeEmpty(XorWithKey(Encode(apiKey)));
    }
  }

  /** decrypt ∘ encrypt is the identity on Latin-1 strings. */
  lemma DecryptEncrypt(apiKey: string)
    requires IsLatin1(apiKey)
    ensures Decrypt(Encrypt(apiKey)) == apiKey
  {
    var e := Encode(apiKey);
    var x := XorWithKey(e);
    OuterBtoaSucceeds(apiKey);
    AtobBtoa(x);
    XorWithKeyInvolution(e);
    AtobBtoa(apiKey);
  }

  /** A run of alphabet symbols whose length leaves remainder 1 modulo 4 is rejected by `atob`, so `decryptApiKey` gives `''`. */
  lemma DecryptMalformed(encrypted: string)
    requires AllSyms(encrypted) && |encrypted| % 4 == 1
    ensures Decrypt(encrypted) == ""
  {
    assert forall i :: 0 <= i < |encrypted| ==> !IsAsciiWhitespace(encrypted[i]);
    assert StripWhitespace(encrypted) == encrypted;
  }

  /**
   * A stored value with a character outside the Base64 alphabet, ASCII
   * whitespace and `=` makes the first `atob` throw, so `decryptApiKey`
   * returns `''`.
   */
  lemma DecryptForeign(encrypted: string, i: nat)
    requires i < |encrypted| && !IsSym(encrypted[i]) && !IsAsciiWhitespace(encrypted[i]) && encrypted[i] != '='
    ensures Atob(encrypted).None? && Decrypt(encrypted) == ""
  {
    AtobRejectsForeign(encrypted, i);
  }

  /**
   * The value `getApiKey` returns for a slot: `null` when the slot is absent
   * or holds `''`, otherwise the decryption of what it holds.
   */
  function StoredApiKey(slot: Option<string>): (r: Option<string>)
    ensures r.None? <==> !Truthy(slot)
  {
    if !Truthy(slot) then None else Some(Decrypt(slot.value))
  }

  /** The one session-storage slot the utility reads and writes. */
  class SessionKeyVault {
    var slot: Option<string>

    constructor()
      ensures slot == None
    {
      slot := None;
    }

    /** `saveApiKey`: stores the obfuscated key (`''` when encryption failed). */
    method SaveApiKey(apiKey: string)
      modifies this
      ensures slot == Some(Encrypt(apiKey))
    {
      var encrypted := EncryptApiKey(apiKey);
      slot := Some(encrypted);
    }

    /** `getApiKey`. */
    method GetApiKey() returns (r: Option<string>)
      ensures r == StoredApiKey(slot)
    {
      if !Truthy(slot) {
        return None;
      }
      var key := DecryptApiKey(slot.value);
      r := Some(key);
    }

    /** `clearApiKey`. */
    method ClearApiKey()
      modifies this
      ensures slot == None && StoredApiKey(slot) == None
    {
      slot := None;
    }
  }

  /** After `saveApiKey(k)`, `getApiKey` gives back `k`, or `null` when `k` is empty or not Latin-1. */
  lemma SaveThenGet(apiKey: string)
    ensures StoredApiKey(Some(Encrypt(apiKey)))
      == if apiKey != "" && IsLatin1(apiKey) then Some(apiKey) else None
  {
    EncryptEmptyIff(apiKey);
    if apiKey != "" && IsLatin1(apiKey) {
      DecryptEncrypt(apiKey);
    }
  }

  /** A malformed stored value reads back as `''`, not as `null`. */
  lemma GetMalformed(stored: string)
    requires AllSyms(stored) && |stored| % 4 == 1
    ensures StoredApiKey(Some(stored)) == Some("")
  {
    DecryptMalformed(stored);
  }
}
