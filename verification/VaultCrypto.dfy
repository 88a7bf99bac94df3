/** Password wrapping and key transfer over ideal cryptography: a ciphertext is a term that opens
    exactly under the key, nonce and authenticated data it was made with. */
module VaultCrypto {
  import opened Wrappers

  type UserId = nat
  type VaultId = nat
  type RequestId = nat
  type Bytes = seq<bv8>
  type Password = string
  type Salt = nat
  type Nonce = nat
  type KeyPairId = nat

  /** Stands for the empty identifier, which no row has. */
  const NO_ID: nat := 0

  const WRAP_ALGORITHM := "aes-256-gcm"
  const TRANSFER_ALGORITHM := "rsa-oaep-sha256"
  const KDF_NAME := "argon2id"
  const KEY_VERSION := 1
  const VAULT_KEY_BYTES := 32

  datatype Binding = Binding(vaultId: VaultId, userId: UserId)

  datatype Kdf = Kdf(name: string, memoryKiB: nat, iterations: nat, parallelism: nat, salt: Salt)

  /** The key that a password and its derivation metadata give. */
  datatype WrapKey = WrapKey(password: Password, kdf: Kdf)

  datatype AesGcm = AesGcm(key: WrapKey, nonce: Nonce, aad: Option<Binding>, plaintext: Bytes)

  datatype PasswordEnvelope = PasswordEnvelope(version: int, keyVersion: int, binding: Option<Binding>, kdf: Kdf,
                                               algorithm: string, nonce: Nonce, ciphertext: AesGcm)

  datatype CryptoError =
    | InvalidKeyLength | PasswordRequired | OuterSpaces | UnsupportedVersion | InvalidBindingOrKeyVersion
    | UnsupportedAlgorithm | WrongBinding | UnsupportedKdf | OperationError | InvalidContext | InvalidEnvelope

  predicate IsSpace(c: char) {
    var n := c as int;
    || 9 <= n <= 13 || n == 32 || n == 0xA0 || n == 0x1680 || 0x2000 <= n <= 0x200A || n == 0x2028 || n == 0x2029
    || n == 0x202F || n == 0x205F || n == 0x3000 || n == 0xFEFF
  }

  function NormalizePassword(password: Password): Result<Password, CryptoError> {
    if password == "" then Err(PasswordRequired)
    else if IsSpace(password[0]) || IsSpace(password[|password| - 1]) then Err(OuterSpaces)
    else Ok(password)
  }

  /** White space as the language's own trimming has it. */
  lemma SpacesAre(c: char)
    ensures IsSpace(c) <==>
              c as int in {9, 10, 11, 12, 13, 32, 160, 5760, 8192, 8193, 8194, 8195, 8196, 8197, 8198, 8199, 8200, 8201, 8202,
                           8232, 8233, 8239, 8287, 12288, 65279}
  {
  }

  /** A password is used as it is, if it is not empty and neither starts nor ends with a space. */
  lemma PasswordsAreKept(password: Password)
    ensures NormalizePassword(password).Ok? <==>
              password != "" && !IsSpace(password[0]) && !IsSpace(password[|password| - 1])
    ensures NormalizePassword(password).Ok? ==> NormalizePassword(password).value == password
    ensures password == "" <==> NormalizePassword(password) == Err(PasswordRequired)
  {
    hide IsSpace;
  }

  function DeriveWrapKey(password: Password, kdf: Kdf): Result<WrapKey, CryptoError> {
    if kdf.name != KDF_NAME then Err(UnsupportedKdf) else Ok(WrapKey(password, kdf))
  }

  function Decrypt(c: AesGcm, key: WrapKey, nonce: Nonce, aad: Option<Binding>): Result<Bytes, CryptoError> {
    if c.key == key && c.nonce == nonce && c.aad == aad then Ok(c.plaintext) else Err(OperationError)
  }

  /** Rewraps an existing data key under a password; the salt and nonce are drawn afresh. */
  function Wrap(password: Password, key: Bytes, binding: Option<Binding>, salt: Salt, nonce: Nonce):
    Result<PasswordEnvelope, CryptoError>
  {
    if |key| != VAULT_KEY_BYTES then Err(InvalidKeyLength)
    else
      match NormalizePassword(password)
      case Err(e) => Err(e)
      case Ok(normal) =>
        var kdf := Kdf(KDF_NAME, 65536, 3, 1, salt);
        Ok(PasswordEnvelope(if binding.Some? then 2 else 1, KEY_VERSION, binding, kdf, WRAP_ALGORITHM, nonce,
                            AesGcm(WrapKey(normal, kdf), nonce, binding, key)))
  }

  function ValidateEnvelope(e: PasswordEnvelope): Result<(), CryptoError> {
    if e.version != 1 && e.version != 2 then Err(UnsupportedVersion)
    else if || e.keyVersion != KEY_VERSION
            || (e.version == 1 && e.binding.Some?)
            || (e.version == 2 && (e.binding.None? || e.binding.value.userId == NO_ID || e.binding.value.vaultId == NO_ID))
      then Err(InvalidBindingOrKeyVersion)
    else if e.algorithm != WRAP_ALGORITHM then Err(UnsupportedAlgorithm)
    else Ok(())
  }

  function Unwrap(password: Password, e: PasswordEnvelope, expected: Option<Binding>): Result<Bytes, CryptoError> {
    match NormalizePassword(password)
    case Err(error) => Err(error)
    case Ok(normal) =>
      match ValidateEnvelope(e)
      case Err(error) => Err(error)
      case Ok(_) =>
        if e.version == 2 && (expected.None? || e.binding != expected) then Err(WrongBinding)
        else
          match DeriveWrapKey(normal, e.kdf)
          case Err(error) => Err(error)
          case Ok(key) => Decrypt(e.ciphertext, key, e.nonce, if e.version == 2 then e.binding else None)
  }

  /** A wrapped key comes back exactly under the password it was wrapped with and, when the wrapper
      is bound, for the vault and user it was bound to. */
  lemma UnwrapInvertsWrapExactly(password: Password, key: Bytes, binding: Option<Binding>, salt: Salt, nonce: Nonce,
                                 attempt: Password, expected: Option<Binding>)
    requires binding.Some? ==> binding.value.vaultId != NO_ID && binding.value.userId != NO_ID
    ensures var wrapped := Wrap(password, key, binding, salt, nonce);
            && (wrapped.Ok? <==> |key| == VAULT_KEY_BYTES && NormalizePassword(password).Ok?)
            && (wrapped.Ok? ==>
                  (Unwrap(attempt, wrapped.value, expected) == Ok(key)
                   <==> attempt == password && (binding.Some? ==> expected == binding)))
            && (wrapped.Ok? && Unwrap(attempt, wrapped.value, expected).Ok? ==>
                  Unwrap(attempt, wrapped.value, expected) == Ok(key))
  {
  }

  /** A key is wrapped exactly if it has 32 bytes and the password is one; the wrapper opens to it with this
      password only and, if it is bound, for this vault and user only. */
  lemma SealedOpens(password: Password, key: Bytes, binding: Option<Binding>, salt: Salt, nonce: Nonce)
    requires binding.Some? ==> binding.value.vaultId != NO_ID && binding.value.userId != NO_ID
    ensures var wrapped := Wrap(password, key, binding, salt, nonce);
            && (wrapped.Ok? <==> |key| == 32 && NormalizePassword(password).Ok?)
            && (wrapped.Ok? ==>
                  forall attempt, expected :: Unwrap(attempt, wrapped.value, expected) == Ok(key) <==>
                                                attempt == password && (binding.Some? ==> expected == binding))
  {
    var wrapped := Wrap(password, key, binding, salt, nonce);
    UnwrapInvertsWrapExactly(password, key, binding, salt, nonce, "", None);
    forall attempt, expected
      ensures wrapped.Ok? ==> (Unwrap(attempt, wrapped.value, expected) == Ok(key) <==>
                               attempt == password && (binding.Some? ==> expected == binding))
    {
      UnwrapInvertsWrapExactly(password, key, binding, salt, nonce, attempt, expected);
    }
  }

  /** The format a key is wrapped in: version 2 if it is bound, else version 1, at key version 1, with
      Argon2id over 64 MiB in three passes and AES-256-GCM authenticating the binding. */
  lemma WrappedFormat(password: Password, key: Bytes, binding: Option<Binding>, salt: Salt, nonce: Nonce)
    ensures var wrapped := Wrap(password, key, binding, salt, nonce);
            && (|key| != 32 ==> wrapped == Err(InvalidKeyLength))
            && (wrapped.Ok? ==>
                  var kdf := Kdf("argon2id", 65536, 3, 1, salt);
                  wrapped.value == PasswordEnvelope(if binding.Some? then 2 else 1, 1, binding, kdf, "aes-256-gcm", nonce,
                                                    AesGcm(WrapKey(password, kdf), nonce, binding, key)))
  {
  }

  /** An envelope whose version, key version, binding, algorithm or derivation is not of the format never
      opens, whatever the password. */
  lemma OnlyTheFormatOpens(password: Password, e: PasswordEnvelope, expected: Option<Binding>)
    ensures Unwrap(password, e, expected).Ok? ==>
              && e.keyVersion == 1 && e.algorithm == "aes-256-gcm" && e.kdf.name == "argon2id"
              && (e.version == 1 ==> e.binding.None?)
              && (e.version != 1 ==>
                    e.version == 2 && e.binding.Some? && e.binding.value.userId != 0 && e.binding.value.vaultId != 0)
              && e.ciphertext.nonce == e.nonce && e.ciphertext.key.kdf == e.kdf
  {
  }

  /** Whatever opens at all holds the key it was sealed with, and no other. */
  lemma UnwrapRevealsOnlyTheSealedKey(password: Password, e: PasswordEnvelope, expected: Option<Binding>)
    ensures Unwrap(password, e, expected).Ok? ==>
              && Unwrap(password, e, expected).value == e.ciphertext.plaintext
              && e.ciphertext.key == WrapKey(password, e.kdf)
              && (e.version == 2 ==> e.binding == expected && e.ciphertext.aad == expected)
              && (e.version != 2 ==> e.version == 1 && e.ciphertext.aad.None?)
  {
  }

  // ------------------------------------------------------------ key transfer

  datatype TransferContext = TransferContext(requestId: RequestId, vaultId: VaultId, userId: UserId, accessVersion: nat)

  datatype RsaOaep = RsaOaep(publicKey: KeyPairId, context: TransferContext, plaintext: Bytes)

  datatype TransferEnvelope = TransferEnvelope(version: int, algorithm: string, ciphertext: RsaOaep)

  /** The label a transfer is sealed under; there is none for an incomplete context. */
  predicate ValidContext(c: TransferContext) {
    c.requestId != NO_ID && c.vaultId != NO_ID && c.userId != NO_ID && c.accessVersion >= 1
  }

  function EncryptForReceiver(key: Bytes, publicKey: KeyPairId, context: TransferContext): Result<TransferEnvelope, CryptoError> {
    if |key| != VAULT_KEY_BYTES then Err(InvalidKeyLength)
    else if !ValidContext(context) then Err(InvalidContext)
    else Ok(TransferEnvelope(1, TRANSFER_ALGORITHM, RsaOaep(publicKey, context, key)))
  }

  function DecryptTransferred(e: TransferEnvelope, privateKey: KeyPairId, context: TransferContext): Result<Bytes, CryptoError> {
    if e.version != 1 || e.algorithm != TRANSFER_ALGORITHM then Err(InvalidEnvelope)
    else if !ValidContext(context) then Err(InvalidContext)
    else if e.ciphertext.publicKey != privateKey || e.ciphertext.context != context then Err(OperationError)
    else if |e.ciphertext.plaintext| != VAULT_KEY_BYTES then Err(InvalidKeyLength)
    else Ok(e.ciphertext.plaintext)
  }

  /** A transferred key comes back exactly for the receiver, request, vault, user and access version
      it was sealed for, and never for an access version below one. */
  lemma TransferInvertsExactly(key: Bytes, publicKey: KeyPairId, context: TransferContext, privateKey: KeyPairId,
                               presented: TransferContext)
    ensures var e := EncryptForReceiver(key, publicKey, context);
            && (e.Ok? <==>
                  && |key| == 32 && context.requestId != 0 && context.vaultId != 0 && context.userId != 0
                  && context.accessVersion >= 1)
            && (e.Ok? ==>
                  (DecryptTransferred(e.value, privateKey, presented) == Ok(key)
                   <==> privateKey == publicKey && presented == context))
  {
  }

  /** Whatever transfer opens is of the one format, sealed to this receiver and context, and holds a key. */
  lemma TransfersOpenExactly(e: TransferEnvelope, privateKey: KeyPairId, context: TransferContext)
    ensures DecryptTransferred(e, privateKey, context).Ok? <==>
              && e.version == 1 && e.algorithm == "rsa-oaep-sha256" && ValidContext(context)
              && e.ciphertext.publicKey == privateKey && e.ciphertext.context == context && |e.ciphertext.plaintext| == 32
    ensures DecryptTransferred(e, privateKey, context).Ok? ==>
              DecryptTransferred(e, privateKey, context).value == e.ciphertext.plaintext
  {
  }

  /** The code both sides compare: it binds the receiver's key and the whole context. */
  datatype VerificationCode = VerificationCode(publicKey: KeyPairId, context: TransferContext)
}
