/** Password wrappers over whole runs of the service: whatever clients send, a wrapper that a key
    request wrote is bound to its own vault and user, at the vault's key version. */
module SharingWrappers {
  import opened Wrappers
  import opened VaultCrypto
  import opened SharingTables
  import opened SharingService
  import opened SharingSafety
  import opened SharingEpochs

  /** Written out in fields: an envelope of version 2, for this vault and user, of the vault's own key. */
  predicate BoundTo(db: Db, e: PasswordEnvelope, v: VaultId, u: UserId) {
    e.version == 2 && e.binding == Some(Binding(v, u)) && v in db.vaults && e.keyVersion == db.vaults[v].keyVersion
  }

  predicate SameKeyVersions(before: Db, after: Db) {
    forall v | v in before.vaults :: v in after.vaults && after.vaults[v].keyVersion == before.vaults[v].keyVersion
  }

  /** The vault row a completing call read has the vault's key version; before it writes, its envelope
      was found to be bound to the request's vault and user. */
  predicate CompletionBound(db: Db, th: Thread) {
    th.call.Complete? ==>
      && (th.vaultRow.Some? ==>
            th.call.vault in db.vaults && th.vaultRow.value.keyVersion == db.vaults[th.call.vault].keyVersion)
      && (th.pc == Write ==> BoundTo(db, th.call.envelope, th.call.vault, th.call.user))
  }

  predicate CompletionsBound(w: World) {
    forall t | t in w.threads :: CompletionBound(w.db, w.threads[t])
  }

  lemma StatementKeepsKeyVersions(w: World, s: Statement)
    ensures SameKeyVersions(w.db, Exec(w, s).0.db)
  {
    if WritesVaults(s) {
      hide MembersOf, LiveVaultIdsOf, Queued;
    } else {
      Untouched(w, s);
      hide Exec;
    }
  }

  lemma BoundStays(before: Db, after: Db, th: Thread)
    requires SameKeyVersions(before, after) && CompletionBound(before, th)
    ensures CompletionBound(after, th)
  {
  }

  lemma NextIsBound(w: World, th: Thread, enabled: bool, freshId: InvitationId)
    requires th.call.Complete? && CompletionBound(w.db, th) && ThreadRules(w, th)
    ensures var action := Next(w, th, enabled, freshId);
            && CompletionBound(w.db, action.onSuccess) && CompletionBound(w.db, action.onFailure)
            && (action.statement.Some? && action.statement.value.CompleteRequest? ==>
                  BoundTo(w.db, action.statement.value.envelope, action.statement.value.row.vault, action.statement.value.row.user))
  {
    hide IsMember, PasswordWrapper, SameIdentity;
  }

  lemma OthersCompleteNothing(w: World, th: Thread, enabled: bool, freshId: InvitationId)
    requires !th.call.Complete?
    ensures var action := Next(w, th, enabled, freshId);
            && !action.onSuccess.call.Complete? && !action.onFailure.call.Complete?
            && (action.statement.Some? ==> !action.statement.value.CompleteRequest?)
  {
    hide LiveVault, IsMember, LiveInvitation, Lower, Trim, NewRequest, GrantOf, EnrollmentStatus;
  }

  /** Any statement a step runs to complete a request writes a bound envelope. */
  lemma CompletingIsBound(w: World, step: Step)
    requires Inv(w) && CompletionsBound(w)
    ensures var s := StatementOf(w, step);
            s.Some? && s.value.CompleteRequest? ==> BoundTo(w.db, s.value.envelope, s.value.row.vault, s.value.row.user)
  {
    hide Next, ThreadRules, EpochRules, KeyRequestRules, InvitationRules, CompletionBound, BoundTo;
    if step.Advance? && step.thread in w.threads {
      var th := w.threads[step.thread];
      assert CompletionBound(w.db, th) && ThreadRules(w, th);
      if th.call.Complete? {
        NextIsBound(w, th, step.sharingEnabled, step.freshId);
      } else {
        OthersCompleteNothing(w, th, step.sharingEnabled, step.freshId);
      }
    }
  }

  lemma StepKeepsCompletionsBound(w: World, step: Step)
    requires Inv(w) && CompletionsBound(w)
    ensures CompletionsBound(Apply(w, step)) && SameKeyVersions(w.db, Apply(w, step).db)
  {
    var next := Apply(w, step);
    StepIsItsStatement(w, step);
    if StatementOf(w, step).Some? {
      StatementKeepsKeyVersions(w, StatementOf(w, step).value);
    }
    assert SameKeyVersions(w.db, next.db);
    forall t | t in next.threads
      ensures CompletionBound(next.db, next.threads[t])
    {
      ThreadStaysBound(w, step, t);
    }
  }

  lemma ThreadStaysBound(w: World, step: Step, t: ThreadId)
    requires Inv(w) && CompletionsBound(w) && t in Apply(w, step).threads && SameKeyVersions(w.db, Apply(w, step).db)
    ensures CompletionBound(Apply(w, step).db, Apply(w, step).threads[t])
  {
    var next := Apply(w, step);
    hide Next, Exec, ThreadRules, EpochRules, KeyRequestRules, InvitationRules, SameKeyVersions, BoundTo;
    if t in w.threads {
      var th := w.threads[t];
      assert CompletionBound(w.db, th) && ThreadRules(w, th);
      ExecKeepsThreads(w);
      if step.Advance? && step.thread == t {
        if th.call.Complete? {
          NextIsBound(w, th, step.sharingEnabled, step.freshId);
        } else {
          OthersCompleteNothing(w, th, step.sharingEnabled, step.freshId);
        }
      } else {
        assert next.threads[t] == th;
      }
      hide CompletionBound;
      if CompletionBound(w.db, next.threads[t]) {
        BoundStays(w.db, next.db, next.threads[t]);
      }
    } else {
      ExecKeepsThreads(w);
    }
  }

  lemma ExecKeepsThreads(w: World)
    ensures forall s :: Exec(w, s).0.threads == w.threads
  {
    hide Execute, CountRemoval;
  }

  lemma {:induction false} RunKeepsCompletionsBound(w: World, steps: seq<Step>)
    requires Inv(w) && CompletionsBound(w)
    ensures CompletionsBound(Run(w, steps)) && SameKeyVersions(w.db, Run(w, steps).db)
    decreases |steps|
  {
    hide Inv, CompletionsBound, Apply;
    if steps != [] {
      StepKeepsInv(w, steps[0]);
      StepKeepsCompletionsBound(w, steps[0]);
      RunKeepsCompletionsBound(Apply(w, steps[0]), steps[1..]);
    }
  }

  // ---------------------------------------------------- who wrote a wrapper last

  datatype Author = Nobody | Creator | PasswordChange | Request(id: RequestId)

  /** The statement writes the wrapper of `k` anew. */
  predicate Rewrites(w: World, s: Statement, k: (VaultId, UserId)) {
    match s
    case CompleteRequest(id, row, _) => (row.vault, row.user) == k && MayComplete(w.db, id, row, w.now)
    case ReplaceWrapper(v, u, e) => (v, u) == k && MayChangePassword(w.db, u, v, e)
    case InsertVault(v, org, u, e, maxVaults) => (v, u) == k && CreateVault(w.db, v, org, u, e, maxVaults, w.now).1
    case _ => false
  }

  function AuthorAfter(w: World, s: Statement, k: (VaultId, UserId), before: Author): Author {
    if !Rewrites(w, s, k) then before
    else if s.CompleteRequest? then Request(s.request)
    else if s.ReplaceWrapper? then PasswordChange
    else Creator
  }

  function AuthorIn(w: World, steps: seq<Step>, k: (VaultId, UserId), before: Author): Author
    decreases |steps|
  {
    if steps == [] then before
    else
      var s := StatementOf(w, steps[0]);
      AuthorIn(Apply(w, steps[0]), steps[1..], k, if s.Some? then AuthorAfter(w, s.value, k, before) else before)
  }

  /** A wrapper a request wrote is bound to its own vault and user. */
  predicate AuthoredRules(db: Db, k: (VaultId, UserId), author: Author) {
    author.Request? ==> k in db.wrappers && BoundTo(db, db.wrappers[k].envelope, k.0, k.1)
  }

  /** Every other statement keeps the envelope. */
  lemma WrapperIsOnlyRewritten(w: World, s: Statement, k: (VaultId, UserId))
    requires WritesWrappers(s)
    ensures var after := Exec(w, s).0.db.wrappers;
            && (!Rewrites(w, s, k) && k in w.db.wrappers ==> k in after && after[k].envelope == w.db.wrappers[k].envelope)
            && (Rewrites(w, s, k) && s.CompleteRequest? ==> k in after && after[k].envelope == s.envelope)
  {
    hide MembersOf, LiveVaultIdsOf, Queued, RevokeGrants, CancelRequests, CountRemoval, LiveVault, IsMember, Enrolled, CancelOpen;
  }

  lemma StatementKeepsAuthored(w: World, s: Statement, k: (VaultId, UserId), author: Author)
    requires AuthoredRules(w.db, k, author) && SameKeyVersions(w.db, Exec(w, s).0.db)
    requires s.CompleteRequest? ==> BoundTo(w.db, s.envelope, s.row.vault, s.row.user)
    ensures AuthoredRules(Exec(w, s).0.db, k, AuthorAfter(w, s, k, author))
  {
    if WritesWrappers(s) {
      WrapperIsOnlyRewritten(w, s, k);
      hide Exec, SameKeyVersions, Rewrites;
    } else {
      Untouched(w, s);
      hide Exec, MayComplete, MayChangePassword, CreateVault;
    }
  }

  lemma {:induction false} RunKeepsAuthored(w: World, steps: seq<Step>, k: (VaultId, UserId), author: Author)
    requires Inv(w) && CompletionsBound(w) && AuthoredRules(w.db, k, author)
    ensures AuthoredRules(Run(w, steps).db, k, AuthorIn(w, steps, k, author))
    decreases |steps|
  {
    if steps != [] {
      var s := StatementOf(w, steps[0]);
      StepIsItsStatement(w, steps[0]);
      StepKeepsInv(w, steps[0]);
      StepKeepsCompletionsBound(w, steps[0]);
      CompletingIsBound(w, steps[0]);
      hide Inv, CompletionsBound, Apply, Exec, StatementOf, AuthorAfter, AuthoredRules, BoundTo, SameKeyVersions;
      if s.Some? {
        StatementKeepsAuthored(w, s.value, k, author);
      }
      var next := if s.Some? then AuthorAfter(w, s.value, k, author) else author;
      RunKeepsAuthored(Apply(w, steps[0]), steps[1..], k, next);
    }
  }

  /** In every run from the beginning, with any clients and any interleaving, a wrapper that a key
      request wrote last is an envelope of version 2 for its own vault and user, at the vault's key
      version. */
  lemma RequestedWrappersAreBound(members: map<(OrgId, UserId), Role>, emails: map<UserId, Email>, now: int, steps: seq<Step>,
                                  v: VaultId, u: UserId)
    ensures var start := SharingService.Initial(members, emails, now);
            var later := Run(start, steps).db;
            AuthorIn(start, steps, (v, u), Nobody).Request? ==>
              && (v, u) in later.wrappers && v in later.vaults
              && later.wrappers[(v, u)].envelope.version == 2
              && later.wrappers[(v, u)].envelope.binding == Some(Binding(v, u))
              && later.wrappers[(v, u)].envelope.keyVersion == later.vaults[v].keyVersion
  {
    var start := SharingService.Initial(members, emails, now);
    InitialInv(members, emails, now);
    hide Inv;
    RunKeepsAuthored(start, steps, (v, u), Nobody);
  }
}
