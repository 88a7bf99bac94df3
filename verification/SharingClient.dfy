/** The client objects, one call at a time: what the network answers is a parameter, and each message
    sent is recorded with what the device had stored when it was sent. */
module SharingClient {
  import opened Wrappers
  import opened VaultCrypto
  import opened SharingTables
  import opened KeyDelivery

  datatype ClientError =
    | PasswordsDiffer | BadPassword(reason: CryptoError) | StartNewRequest | NetworkError | NotForThisDevice
    | ExpiredOrCanceled | ApprovalRequired | Crypto(error: CryptoError) | CannotApprove | CodeDiffers | Refused | NoWrapper

  datatype Message =
    | StartMessage(id: RequestId, publicKey: KeyPairId)
    | CompleteMessage(id: RequestId, envelope: PasswordEnvelope)

  /** A message and the receiver that was stored when it left. */
  datatype Sent = Sent(message: Message, stored: Option<Receiver>)

  /** A start message left only once its key pair was stored, a completion only once its wrapper was. */
  predicate StoredFirst(s: Sent) {
    && s.stored.Some? && s.stored.value.id == s.message.id
    && match s.message
       case StartMessage(_, publicKey) => s.stored.value.keyPair == publicKey
       case CompleteMessage(_, envelope) => s.stored.value.prepared == Some(envelope)
  }

  /** Completions of one request all carry one wrapper. */
  predicate OneWrapperEach(sent: seq<Sent>) {
    forall i, j | 0 <= i < |sent| && 0 <= j < |sent| && sent[i].message.CompleteMessage? && sent[j].message.CompleteMessage?
                  && sent[i].message.id == sent[j].message.id ::
      sent[i].message.envelope == sent[j].message.envelope
  }

  predicate PreparedIsSent(sent: seq<Sent>, stored: Option<Receiver>) {
    stored.Some? ==>
      forall i | 0 <= i < |sent| && sent[i].message.CompleteMessage? && sent[i].message.id == stored.value.id ::
        stored.value.prepared == Some(sent[i].message.envelope)
  }

  class SharingManager {
    const user: UserId
    const vault: VaultId
    var stored: Option<Receiver>
    var sent: seq<Sent>

    ghost predicate Valid()
      reads this
    {
      && user != NO_ID && vault != NO_ID
      && (forall i | 0 <= i < |sent| :: StoredFirst(sent[i]))
      && OneWrapperEach(sent) && PreparedIsSent(sent, stored)
    }

    constructor (user: UserId, vault: VaultId, stored: Option<Receiver>)
      requires user != NO_ID && vault != NO_ID
      ensures Valid() && this.user == user && this.vault == vault && this.stored == stored && sent == []
    {
      this.user, this.vault, this.stored, this.sent := user, vault, stored, [];
    }

    predicate IsOwn(receiver: Receiver, r: KeyRequest)
      reads this
    {
      r.user == user && r.vault == vault && r.publicKey == receiver.keyPair
    }

    /** Stores a fresh receiver before sending, so that a lost reply never orphans its key; keeps an
        unexpired one; and forgets it only when the server answers that the request is over. */
    method Begin(now: int, freshId: RequestId, freshPair: KeyPairId, reply: Option<KeyRequest>)
      returns (result: Result<KeyRequest, ClientError>)
      requires Valid() && forall i | 0 <= i < |sent| :: sent[i].message.id != freshId
      modifies this
      ensures Valid()
      ensures var receiver := if old(stored).Some? && now < old(stored).value.expiresAt then old(stored).value
                              else Receiver(freshId, freshPair, now + 172_800_000, None);
              var own := reply.Some? && reply.value.user == user && reply.value.vault == vault
                         && reply.value.publicKey == receiver.keyPair;
              && sent == old(sent) + [Sent(StartMessage(receiver.id, receiver.keyPair), Some(receiver))]
              && (result.Ok? <==> own && !reply.value.status.Canceled? && now < reply.value.expiresAt)
              && (result.Ok? ==> result.value == reply.value)
              && (result == Err(ExpiredOrCanceled) <==>
                    own && (reply.value.status.Canceled? || reply.value.expiresAt <= now))
              && stored == if result == Err(ExpiredOrCanceled) then None else Some(receiver)
    {
      if stored.None? || stored.value.expiresAt <= now {
        stored := Some(Receiver(freshId, freshPair, now + REQUEST_LIFETIME_MS, None));
      }
      var receiver := stored.value;
      sent := sent + [Sent(StartMessage(receiver.id, receiver.keyPair), stored)];
      if reply.None? {
        return Err(NetworkError);
      }
      if !IsOwn(receiver, reply.value) {
        return Err(NotForThisDevice);
      }
      if reply.value.status.Canceled? || reply.value.expiresAt <= now {
        stored := None;
        return Err(ExpiredOrCanceled);
      }
      result := Ok(reply.value);
    }

    method Restart(now: int, freshId: RequestId, freshPair: KeyPairId, reply: Option<KeyRequest>)
      returns (result: Result<KeyRequest, ClientError>)
      requires Valid() && forall i | 0 <= i < |sent| :: sent[i].message.id != freshId
      modifies this
      ensures Valid()
      ensures var receiver := Receiver(freshId, freshPair, now + 172_800_000, None);
              && sent == old(sent) + [Sent(StartMessage(freshId, freshPair), Some(receiver))]
              && (stored == None || stored == Some(receiver))
              && (result.Ok? ==> result.value.publicKey == freshPair && stored == Some(receiver))
    {
      stored := None;
      result := Begin(now, freshId, freshPair, reply);
    }

    /** The key a receive works with: from the prepared wrapper if there is one, else from the transfer. */
    function KeyToReceive(password: Password, receiver: Receiver, r: KeyRequest): Result<Bytes, ClientError>
      reads this
    {
      if receiver.prepared.Some? then
        match Unwrap(password, receiver.prepared.value, Some(Binding(vault, user)))
        case Ok(key) => Ok(key)
        case Err(e) => Err(Crypto(e))
      else if r.envelope.None? || !r.status.Approved? then Err(StartNewRequest)
      else
        match DecryptTransferred(r.envelope.value, receiver.keyPair, ContextOf(receiver.id, r))
        case Ok(key) => Ok(key)
        case Err(e) => Err(Crypto(e))
    }

    /** Stores the wrapper before sending it, sends exactly the stored one, and forgets the receiver
        only when the server accepts; the buffer that held the key is zeroed in every case. A wrapper
        prepared here opens, for this vault and user and this password only, to the very key that was
        sealed for this receiver and request. */
    method Receive(password: Password, confirmation: Password, now: int, fetched: Option<KeyRequest>, salt: Salt, nonce: Nonce,
                   accepted: bool)
      returns (result: Result<(), ClientError>, buffer: array<bv8>)
      requires Valid()
      modifies this
      ensures Valid()
      ensures fresh(buffer) && forall i | 0 <= i < buffer.Length :: buffer[i] == 0
      ensures sent == old(sent) ==> stored == old(stored) && result.Err?
      ensures sent != old(sent) ==>
                && old(stored).Some? && |sent| == |old(sent)| + 1 && sent[|old(sent)|].message.CompleteMessage?
                && var e := sent[|old(sent)|].message.envelope;
                   var prepared := old(stored).value.(prepared := Some(e));
                   && sent == old(sent) + [Sent(CompleteMessage(old(stored).value.id, e), Some(prepared))]
                   && (old(stored).value.prepared.Some? ==> prepared == old(stored).value)
                   && stored == (if accepted then None else Some(prepared))
                   && result == (if accepted then Ok(()) else Err(Refused))
      ensures sent != old(sent) && old(stored).value.prepared.None? ==>
                forall key, attempt, binding ::
                  fetched.Some? && fetched.value.envelope.Some?
                  && EncryptForReceiver(key, old(stored).value.keyPair,
                                        TransferContext(old(stored).value.id, vault, user, fetched.value.accessVersion))
                     == Ok(fetched.value.envelope.value) ==>
                    (Unwrap(attempt, sent[|old(sent)|].message.envelope, binding) == Ok(key) <==>
                     attempt == password && binding == Some(Binding(vault, user)))
      ensures sent != old(sent) <==>
                && password == confirmation && NormalizePassword(password).Ok?
                && old(stored).Some? && now < old(stored).value.expiresAt
                && fetched.Some? && now < fetched.value.expiresAt
                && (fetched.value.status.Approved? || fetched.value.status.Completed?)
                && fetched.value.user == user && fetched.value.vault == vault
                && fetched.value.publicKey == old(stored).value.keyPair
                && if old(stored).value.prepared.Some?
                   then Unwrap(password, old(stored).value.prepared.value, Some(Binding(vault, user))).Ok?
                   else
                     && fetched.value.status.Approved? && fetched.value.envelope.Some?
                     && DecryptTransferred(fetched.value.envelope.value, old(stored).value.keyPair,
                                           TransferContext(old(stored).value.id, vault, user, fetched.value.accessVersion)).Ok?
    {
      hide Unwrap, Wrap, NormalizePassword, ValidContext;
      buffer := new bv8[0];
      if password != confirmation {
        return Err(PasswordsDiffer), buffer;
      }
      var normal := NormalizePassword(password);
      if normal.Err? {
        return Err(BadPassword(normal.error)), buffer;
      }
      if stored.None? || stored.value.expiresAt <= now {
        return Err(StartNewRequest), buffer;
      }
      var receiver := stored.value;
      if fetched.None? {
        return Err(NetworkError), buffer;
      }
      var request := fetched.value;
      if !IsOwn(receiver, request) {
        return Err(NotForThisDevice), buffer;
      }
      if request.expiresAt <= now || !(request.status.Approved? || request.status.Completed?) {
        return Err(ApprovalRequired), buffer;
      }
      var key := KeyToReceive(password, receiver, request);
      if key.Err? {
        return Err(key.error), buffer;
      }
      buffer := new bv8[|key.value|](i requires 0 <= i < |key.value| => key.value[i]);
      if receiver.prepared.None? {
        var wrapped := Wrap(password, key.value, Some(Binding(vault, user)), salt, nonce);
        SealedOpens(password, key.value, Some(Binding(vault, user)), salt, nonce);
        if wrapped.Err? {
          Zero(buffer);
          return Err(Crypto(wrapped.error)), buffer;
        }
        receiver := receiver.(prepared := Some(wrapped.value));
        stored := Some(receiver);
      }
      var e := receiver.prepared.value;
      assert old(stored).value.(prepared := Some(e)) == receiver;
      sent := sent + [Sent(CompleteMessage(receiver.id, e), stored)];
      result := Err(Refused);
      if accepted {
        stored := None;
        result := Ok(());
      }
      Zero(buffer);
    }

    /** Encrypts the approver's key for the receiver, once the recipient's code has matched. */
    method Approve(id: RequestId, r: KeyRequest, key: Bytes, code: VerificationCode, now: int)
      returns (result: Result<TransferEnvelope, ClientError>)
      ensures result.Ok? <==>
                && r.user != user && r.status.Pending? && r.expiresAt > now
                && code == VerificationCode(r.publicKey, TransferContext(id, r.vault, r.user, r.accessVersion))
                && |key| == 32 && id != NO_ID && r.vault != NO_ID && r.user != NO_ID && r.accessVersion >= 1
      ensures result.Ok? ==>
                forall pair, context :: DecryptTransferred(result.value, pair, context) == Ok(key) <==>
                                          pair == r.publicKey && context == TransferContext(id, r.vault, r.user, r.accessVersion)
    {
      if r.user == user || !r.status.Pending? || r.expiresAt <= now {
        return Err(CannotApprove);
      }
      if code != VerificationCode(r.publicKey, ContextOf(id, r)) {
        return Err(CodeDiffers);
      }
      match EncryptForReceiver(key, r.publicKey, ContextOf(id, r))
      case Ok(e) => result := Ok(e);
      case Err(e) => result := Err(Crypto(e));
    }

    /** A new wrapper of the same key, opening with the new password for this vault and user only. */
    method ChangePassword(key: Bytes, password: Password, confirmation: Password, salt: Salt, nonce: Nonce)
      returns (result: Result<PasswordEnvelope, ClientError>)
      requires user != NO_ID && vault != NO_ID
      ensures result.Ok? <==> password == confirmation && NormalizePassword(password).Ok? && |key| == 32
      ensures result.Ok? ==>
                forall attempt, binding :: Unwrap(attempt, result.value, binding) == Ok(key) <==>
                                             attempt == password && binding == Some(Binding(vault, user))
    {
      if password != confirmation {
        return Err(PasswordsDiffer);
      }
      var bound := Some(Binding(vault, user));
      match Wrap(password, key, bound, salt, nonce)
      case Ok(e) =>
        SealedOpens(password, key, bound, salt, nonce);
        result := Ok(e);
      case Err(e) => result := Err(Crypto(e));
    }
  }

  method Zero(buffer: array<bv8>)
    modifies buffer
    ensures forall i | 0 <= i < buffer.Length :: buffer[i] == 0
  {
    for i := 0 to buffer.Length
      invariant forall j | 0 <= j < i :: buffer[j] == 0
    {
      buffer[i] := 0;
    }
  }

  // ------------------------------------------------- where a session comes from

  datatype WrapperRecord = WrapperRecord(isPassword: bool, user: Option<UserId>, revoked: bool, envelope: PasswordEnvelope)

  predicate Usable(w: WrapperRecord) {
    w.isPassword && !w.revoked
  }

  function FirstUsable(wrappers: seq<WrapperRecord>, ofAUser: bool): Option<WrapperRecord>
    decreases |wrappers|
  {
    if wrappers == [] then None
    else if Usable(wrappers[0]) && (ofAUser ==> wrappers[0].user.Some?) then Some(wrappers[0])
    else FirstUsable(wrappers[1..], ofAUser)
  }

  /** The wrapper a session is opened with. */
  function Selected(wrappers: seq<WrapperRecord>): Option<WrapperRecord> {
    if FirstUsable(wrappers, true).Some? then FirstUsable(wrappers, true) else FirstUsable(wrappers, false)
  }

  /** Whom a wrapper is for; one without a user is bound to no one. */
  function ForUser(w: WrapperRecord): UserId {
    if w.user.Some? then w.user.value else NO_ID
  }

  /** The first usable wrapper of a user, or else the first usable one at all. */
  method FindPasswordWrapper(wrappers: seq<WrapperRecord>) returns (found: Option<WrapperRecord>)
    ensures found == Selected(wrappers)
    ensures found.None? <==> forall w | w in wrappers :: !w.isPassword || w.revoked
    ensures found.Some? ==> found.value in wrappers && found.value.isPassword && !found.value.revoked
    ensures found.Some? && found.value.user.None? ==>
              forall w | w in wrappers && w.isPassword && !w.revoked :: w.user.None?
    ensures found.Some? ==>
              exists i | 0 <= i < |wrappers| ::
                wrappers[i] == found.value
                && forall j | 0 <= j < i && wrappers[j].isPassword && !wrappers[j].revoked ::
                     wrappers[j].user.None? && found.value.user.Some?
  {
    assert wrappers[0..] == wrappers;
    for i := 0 to |wrappers|
      invariant forall j | 0 <= j < i && Usable(wrappers[j]) :: wrappers[j].user.None?
      invariant FirstUsable(wrappers[i..], true) == FirstUsable(wrappers, true)
    {
      assert wrappers[i..][1..] == wrappers[i + 1..];
      if Usable(wrappers[i]) && wrappers[i].user.Some? {
        return Some(wrappers[i]);
      }
    }
    for i := 0 to |wrappers|
      invariant forall j | 0 <= j < i :: !Usable(wrappers[j])
      invariant FirstUsable(wrappers[i..], false) == FirstUsable(wrappers, false)
    {
      assert wrappers[i..][1..] == wrappers[i + 1..];
      if Usable(wrappers[i]) {
        return Some(wrappers[i]);
      }
    }
    found := None;
  }

  class RemoteVaultManager {
    var session: Option<Bytes>
    var secret: Option<Bytes>

    constructor ()
      ensures session.None? && secret.None?
    {
      session, secret := None, None;
    }

    /** Unlocks the vault with its wrapper. Nothing is stored and the key is zeroed when the host
        refuses to activate. */
    method LoadBootstrapSession(vault: VaultId, wrappers: seq<WrapperRecord>, password: Password, activates: bool)
      returns (result: Result<Bytes, ClientError>, buffer: array<bv8>)
      modifies this
      ensures result.Ok? <==>
                && Selected(wrappers).Some? && activates
                && Unwrap(password, Selected(wrappers).value.envelope, Some(Binding(vault, ForUser(Selected(wrappers).value)))).Ok?
      ensures result.Ok? ==>
                && Unwrap(password, Selected(wrappers).value.envelope, Some(Binding(vault, ForUser(Selected(wrappers).value))))
                   == Ok(result.value)
                && (Selected(wrappers).value.user.Some? && Selected(wrappers).value.envelope.version == 2 ==>
                      Selected(wrappers).value.envelope.binding == Some(Binding(vault, Selected(wrappers).value.user.value)))
                && Selected(wrappers).value.envelope.ciphertext.key.password == password
                && result.value == Selected(wrappers).value.envelope.ciphertext.plaintext
                && session == Some(result.value) && secret == session && buffer[..] == result.value
      ensures result.Err? ==>
                && session == old(session) && secret == old(secret)
                && forall i | 0 <= i < buffer.Length :: buffer[i] == 0
    {
      buffer := new bv8[0];
      var wrapper := FindPasswordWrapper(wrappers);
      if wrapper.None? {
        return Err(NoWrapper), buffer;
      }
      var key := Unwrap(password, wrapper.value.envelope, Some(Binding(vault, ForUser(wrapper.value))));
      if key.Err? {
        return Err(Crypto(key.error)), buffer;
      }
      buffer := new bv8[|key.value|](i requires 0 <= i < |key.value| => key.value[i]);
      if !activates {
        Zero(buffer);
        return Err(Refused), buffer;
      }
      UnwrapRevealsOnlyTheSealedKey(password, wrapper.value.envelope, Some(Binding(vault, ForUser(wrapper.value))));
      session := Some(key.value);
      secret := Some(key.value);
      result := Ok(key.value);
    }

    method ClearSession()
      modifies this
      ensures session.None? && secret == old(secret)
    {
      session := None;
    }

    method Disconnect()
      modifies this
      ensures session.None? && secret.None?
    {
      session := None;
      secret := None;
    }
  }
}
