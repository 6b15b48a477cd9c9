/**
 * The backend's credential vault: exchange API keys are stored as tokens
 * `hex(iv) ':' hex(ciphertext) ':' hex(tag)` produced by AES-256-GCM under a
 * process-wide key. The cipher itself is abstract (a pair of functions);
 * what is modelled is the key choice, Node's own checks on key, iv and tag
 * lengths, and the framing of the token.
 */
module CredentialVault {
  import opened Wrappers
  import opened Text

  /** The key used when ENCRYPTION_KEY is unset or empty: "0123456789abcdef" twice. */
  const DEFAULT_KEY: string := HEX_DIGITS + HEX_DIGITS
  /** AES-256 takes a 32-byte key. */
  const KEY_LENGTH: nat := 32
  /** `crypto.randomBytes(16)`. */
  const IV_LENGTH: nat := 16
  /** `getAuthTag()` returns a 16-byte tag by default. */
  const TAG_LENGTH: nat := 16

  /**
   * The AES-256-GCM primitive. `seal(key, iv, text)` gives the bytes of
   * `cipher.update`, the bytes of `cipher.final` and the auth tag;
   * `open(key, iv, ciphertext, tag)` gives the plaintext, or None when the
   * tag does not authenticate (Node throws from `decipher.final`).
   */
  datatype Cipher = Cipher(
    seal: (Bytes, Bytes, string) -> (Bytes, Bytes, Bytes),
    open: (Bytes, Bytes, Bytes, Bytes) -> Option<string>)

  /** What an AES-GCM implementation promises: a 16-byte tag, and open undoes seal. */
  ghost predicate Sound(c: Cipher)
  {
    forall key, iv, text :: SoundAt(c, key, iv, text)
  }

  predicate SoundAt(c: Cipher, key: Bytes, iv: Bytes, text: string)
  {
    var out := c.seal(key, iv, text);
    |out.2| == TAG_LENGTH && c.open(key, iv, out.0 + out.1, out.2) == Some(text)
  }

  /** The ways `encrypt` and `decrypt` throw. */
  datatype VaultError =
    | InvalidKeyLength      // createCipheriv / createDecipheriv: key is not 32 bytes
    | MissingField          // fewer than three ':'-separated fields: Buffer.from(undefined) throws
    | InvalidIv             // createDecipheriv: empty iv
    | InvalidTagLength      // setAuthTag: tag is not 4, 8 or 12..16 bytes
    | OddCiphertextHex      // decipher.update: the hex ciphertext field has an odd length
    | AuthenticationFailed  // decipher.final: the tag does not match

  /** Node accepts GCM tags of 4, 8 and 12 to 16 bytes. */
  predicate ValidTagLength(n: nat)
  {
    n == 4 || n == 8 || 12 <= n <= 16
  }

  /** `getKey()`: ENCRYPTION_KEY unless unset or empty (both falsy), else the default, as UTF-8 bytes. */
  function GetKey(env: Option<string>): (key: Bytes)
    ensures env.None? || env.value == "" ==> key == Utf8Encode(DEFAULT_KEY)
    ensures env.Some? && env.value != "" ==> key == Utf8Encode(env.value)
  {
    if env.Some? && env.value != "" then Utf8Encode(env.value) else Utf8Encode(DEFAULT_KEY)
  }

  lemma DefaultKeyText()
    ensures DEFAULT_KEY == "0123456789abcdef0123456789abcdef"
  {
  }

  /** The default key is exactly an AES-256 key. */
  lemma DefaultKeyLength()
    ensures |GetKey(None)| == KEY_LENGTH
    ensures |GetKey(Some(""))| == KEY_LENGTH
  {
    assert IsAscii(HEX_DIGITS);
    assert IsAscii(DEFAULT_KEY);
    Utf8Ascii(DEFAULT_KEY);
  }

  /** The three-field token framing. */
  function Frame(iv: string, ciphertext: string, tag: string): string
  {
    iv + ":" + ciphertext + ":" + tag
  }

  /**
   * `encrypt(text)` with the random iv as a parameter: the token's first field
   * is the 32-digit hex of the iv, and its three fields are all hex.
   */
  function Encrypt(c: Cipher, key: Bytes, iv: Bytes, text: string): (r: Result<string, VaultError>)
    requires |iv| == IV_LENGTH
    ensures r.Err? <==> |key| != KEY_LENGTH
    ensures r.Ok? ==>
      var parts := Split(r.value, ':');
      && |parts| == 3
      && |parts[0]| == 2 * IV_LENGTH && HexDecode(parts[0]) == iv
      && HexDecode(parts[2]) == c.seal(key, iv, text).2
  {
    if |key| != KEY_LENGTH then Err(InvalidKeyLength)
    else
      var out := c.seal(key, iv, text);
      var encrypted := HexEncode(out.0) + HexEncode(out.1);
      var token := Frame(HexEncode(iv), encrypted, HexEncode(out.2));
      FrameSplits(HexEncode(iv), encrypted, HexEncode(out.2));
      HexRoundTrip(iv);
      HexRoundTrip(out.2);
      Ok(token)
  }

  /** Hex text never holds ':'. */
  lemma HexHasNoColon(s: string)
    requires forall i :: 0 <= i < |s| ==> IsLowerHexDigit(s[i])
    ensures ':' !in s
  {
    forall i | 0 <= i < |s|
      ensures s[i] != ':'
    {
      assert IsLowerHexDigit(s[i]);
    }
  }

  /** Splitting a frame of hex fields recovers exactly the three fields. */
  lemma FrameSplits(a: string, b: string, c: string)
    requires forall i :: 0 <= i < |a| ==> IsLowerHexDigit(a[i])
    requires forall i :: 0 <= i < |b| ==> IsLowerHexDigit(b[i])
    requires forall i :: 0 <= i < |c| ==> IsLowerHexDigit(c[i])
    ensures Split(Frame(a, b, c), ':') == [a, b, c]
  {
    HexHasNoColon(a);
    HexHasNoColon(b);
    HexHasNoColon(c);
    var parts := [a, b, c];
    assert Join(parts, [':']) == Frame(a, b, c) by {
      assert Join(parts[2..], [':']) == c;
      assert Join(parts[1..], [':']) == b + ":" + c;
    }
    SplitJoin(parts, ':');
  }

  /**
   * `decrypt(token)`: fields 0, 1 and 2 are hex-decoded into iv, ciphertext
   * and tag, and the cipher opens them. Node's checks come in the order the
   * source reaches them: iv and key at `createDecipheriv`, the tag at
   * `setAuthTag`, an odd-length hex ciphertext at `update`, and the tag
   * comparison at `final`.
   */
  function Decrypt(c: Cipher, key: Bytes, token: string): (r: Result<string, VaultError>)
    ensures |Split(token, ':')| < 3 <==> r == Err(MissingField)
    ensures r.Ok? ==>
      var parts := Split(token, ':');
      && |key| == KEY_LENGTH
      && |parts[1]| % 2 == 0
      && c.open(key, HexDecode(parts[0]), HexDecode(parts[1]), HexDecode(parts[2])) == Some(r.value)
  {
    var parts := Split(token, ':');
    if |parts| < 3 then Err(MissingField)
    else
      var iv := HexDecode(parts[0]);
      var encrypted := HexDecode(parts[1]);
      var tag := HexDecode(parts[2]);
      if |iv| == 0 then Err(InvalidIv)
      else if |key| != KEY_LENGTH then Err(InvalidKeyLength)
      else if !ValidTagLength(|tag|) then Err(InvalidTagLength)
      else if |parts[1]| % 2 != 0 then Err(OddCiphertextHex)
      else
        match c.open(key, iv, encrypted, tag)
        case Some(text) => Ok(text)
        case None => Err(AuthenticationFailed)
  }

  /** Framing round trip: the fields `decrypt` reads back are the ones `encrypt` wrote. */
  lemma EncryptFields(c: Cipher, key: Bytes, iv: Bytes, text: string)
    requires |iv| == IV_LENGTH && |key| == KEY_LENGTH
    ensures var parts := Split(Encrypt(c, key, iv, text).value, ':');
      var out := c.seal(key, iv, text);
      && |parts| == 3
      && HexDecode(parts[0]) == iv
      && HexDecode(parts[1]) == out.0 + out.1
      && |parts[1]| % 2 == 0
      && HexDecode(parts[2]) == out.2
  {
    var out := c.seal(key, iv, text);
    var encrypted := HexEncode(out.0) + HexEncode(out.1);
    HexEncodeAppend(out.0, out.1);
    HexEvenLength(out.0 + out.1);
    assert Encrypt(c, key, iv, text).value == Frame(HexEncode(iv), encrypted, HexEncode(out.2));
    FrameSplits(HexEncode(iv), encrypted, HexEncode(out.2));
    HexRoundTrip(out.0 + out.1);
  }

  /** Hex text has two digits per byte, so an even number of them. */
  lemma HexEvenLength(bs: Bytes)
    ensures |HexEncode(bs)| % 2 == 0
  {
  }

  /** `decrypt(encrypt(x)) == x` for any sound cipher and a valid key. */
  lemma RoundTrip(c: Cipher, key: Bytes, iv: Bytes, text: string)
    requires Sound(c)
    requires |iv| == IV_LENGTH && |key| == KEY_LENGTH
    ensures Decrypt(c, key, Encrypt(c, key, iv, text).value) == Ok(text)
  {
    EncryptFields(c, key, iv, text);
    assert SoundAt(c, key, iv, text);
  }
}
