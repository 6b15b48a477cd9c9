/**
 * The execution service's own copy of the vault: it only decrypts. Its key
 * choice and token splitting are written out again here, as in the service,
 * and proved to agree with the backend's, so that tokens the backend stores
 * are opened by the worker.
 */
module ExecutionVault {
  import opened Wrappers
  import opened Text
  import CredentialVault

  type Cipher = CredentialVault.Cipher
  type VaultError = CredentialVault.VaultError

  /** `getKey()` of the execution service. */
  function GetKey(env: Option<string>): (key: Bytes)
    ensures env.None? || env.value == "" ==> key == Utf8Encode(CredentialVault.DEFAULT_KEY)
  {
    if env.Some? && env.value != "" then Utf8Encode(env.value) else Utf8Encode(CredentialVault.DEFAULT_KEY)
  }

  /** `decrypt(token)` of the execution service: fields beyond the third are never read. */
  function Decrypt(c: Cipher, key: Bytes, token: string): (r: Result<string, VaultError>)
    ensures |Split(token, ':')| < 3 <==> r == Err(CredentialVault.MissingField)
    ensures r.Ok? ==>
      var parts := Split(token, ':');
      && |key| == CredentialVault.KEY_LENGTH
      && |parts[1]| % 2 == 0
      && c.open(key, HexDecode(parts[0]), HexDecode(parts[1]), HexDecode(parts[2])) == Some(r.value)
  {
    var parts := Split(token, ':');
    if |parts| < 3 then Err(CredentialVault.MissingField)
    else
      var iv := HexDecode(parts[0]);
      var encrypted := HexDecode(parts[1]);
      var tag := HexDecode(parts[2]);
      if |iv| == 0 then Err(CredentialVault.InvalidIv)
      else if |key| != CredentialVault.KEY_LENGTH then Err(CredentialVault.InvalidKeyLength)
      else if !CredentialVault.ValidTagLength(|tag|) then Err(CredentialVault.InvalidTagLength)
      else if |parts[1]| % 2 != 0 then Err(CredentialVault.OddCiphertextHex)
      else
        match c.open(key, iv, encrypted, tag)
        case Some(text) => Ok(text)
        case None => Err(CredentialVault.AuthenticationFailed)
  }

  /** Both services derive the same key from the same environment. */
  lemma SameKey(env: Option<string>)
    ensures GetKey(env) == CredentialVault.GetKey(env)
  {
  }

  /** Both services split and open a token the same way. */
  lemma SameDecrypt(c: Cipher, key: Bytes, token: string)
    ensures Decrypt(c, key, token) == CredentialVault.Decrypt(c, key, token)
  {
  }

  /** Fields after the third are ignored: appending one does not change the outcome. */
  lemma {:induction false} ExtraFieldsIgnored(c: Cipher, key: Bytes, token: string, extra: string)
    requires |Split(token, ':')| >= 3
    ensures Decrypt(c, key, token + ":" + extra) == Decrypt(c, key, token)
  {
    SplitConcat(token, ':', extra);
    var parts := Split(token, ':');
    var longer := Split(token + ":" + extra, ':');
    assert longer == parts + Split(extra, ':');
    assert longer[0] == parts[0] && longer[1] == parts[1] && longer[2] == parts[2];
  }

  /** Cross-service round trip: what the backend encrypts, the worker decrypts, under the same environment. */
  lemma CrossServiceRoundTrip(c: Cipher, env: Option<string>, iv: Bytes, text: string)
    requires CredentialVault.Sound(c)
    requires |iv| == CredentialVault.IV_LENGTH && |CredentialVault.GetKey(env)| == CredentialVault.KEY_LENGTH
    ensures Decrypt(c, GetKey(env), CredentialVault.Encrypt(c, CredentialVault.GetKey(env), iv, text).value) == Ok(text)
  {
    var key := CredentialVault.GetKey(env);
    CredentialVault.RoundTrip(c, key, iv, text);
    SameDecrypt(c, key, CredentialVault.Encrypt(c, key, iv, text).value);
  }
}
