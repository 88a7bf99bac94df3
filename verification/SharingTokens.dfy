/** Sync tokens against removals: what a coordinator refuses, and for how long. */
module SharingTokens {
  import opened Wrappers
  import opened Numbers
  import opened VaultCrypto
  import opened SharingTables
  import opened SharingService
  import opened SharingSafety
  import opened SharingEpochs
  import opened SharingRefresh

  /** Once a vault has no outbox row, its coordinator refuses a token exactly if the token's user was
      removed since the version it carries was read, and the block recorded for that is in force. A
      user who was not removed is never refused. */
  lemma TokensAreRefusedExactly(members: map<(OrgId, UserId), Role>, emails: map<UserId, Email>, now: int, ttl: nat,
                                steps: seq<OutboxStep>, t: Token)
    ensures var o := SharingRefresh.Run(SharingRefresh.Initial(members, emails, now, ttl), steps);
            t in o.tokens && t.vault !in o.world.db.refreshes ==>
              (Refused(o, t) <==> t.stamp < Removals(o.world, t.vault, t.user) && BlockInForce(o, t.vault, t.user))
  {
    InitialOutboxInv(members, emails, now, ttl);
    OutboxRunKeepsInv(SharingRefresh.Initial(members, emails, now, ttl), steps);
    var o := SharingRefresh.Run(SharingRefresh.Initial(members, emails, now, ttl), steps);
    hide Inv, FlusherRules, CheckRules, GrantDue, SharingRefresh.Run, SharingRefresh.Initial;
    if t in o.tokens && t.vault !in o.world.db.refreshes {
      assert Known(o, t.vault) && TokenRules(o, t) && BlockRules(o, t.vault, t.user);
    }
  }

  lemma StepKeepsDue(o: Outbox, step: OutboxStep, v: VaultId, u: UserId)
    requires OutboxInv(o) && Due(o, v, u) > 0
    ensures Due(o, v, u) <= Due(SharingRefresh.Apply(o, step), v, u) && DueAt(o, v, u) <= DueAt(SharingRefresh.Apply(o, step), v, u)
  {
    hide SharingService.Apply, Inv, Requeues, FlusherRules, Known, TokenRules, CheckRules, BlockRules, Minimum;
    if step.Serve? && !(step.step.Administer? && step.step.statement.Finish?) {
      var after := SharingService.Apply(o.world, step.step);
      StepServes(o.world, step.step);
      DueKept(o, after, v, u);
      assert GrantDue(o, (v, u));
      assert Transition(View(o.world, v, u), View(after, v, u));
      TransitionIsMonotone(View(o.world, v, u), View(after, v, u));
    }
  }

  lemma {:induction false} DueGrows(o: Outbox, steps: seq<OutboxStep>, v: VaultId, u: UserId)
    requires OutboxInv(o) && Due(o, v, u) > 0
    ensures Due(o, v, u) <= Due(SharingRefresh.Run(o, steps), v, u) && DueAt(o, v, u) <= DueAt(SharingRefresh.Run(o, steps), v, u)
    decreases |steps|
  {
    hide OutboxInv, SharingRefresh.Apply, Due, DueAt;
    if steps != [] {
      StepKeepsDue(o, steps[0], v, u);
      OutboxStepKeepsInv(o, steps[0]);
      DueGrows(SharingRefresh.Apply(o, steps[0]), steps[1..], v, u);
    }
  }

  lemma {:induction false} TtlStays(o: Outbox, steps: seq<OutboxStep>)
    ensures SharingRefresh.Run(o, steps).ttl == o.ttl
    decreases |steps|
  {
    hide SharingService.Apply, AdvanceCheck, Exec, Recording;
    if steps != [] {
      TtlStays(SharingRefresh.Apply(o, steps[0]), steps[1..]);
    }
  }

  /** A sync token minted before its user was removed is refused by the coordinator from the moment
      the vault leaves the outbox until the token expires, even if the user has come back. */
  lemma TokensFromBeforeARemovalAreRefused(o: Outbox, removal: Step, steps: seq<OutboxStep>, org: OrgId, t: Token)
    requires OutboxInv(o) && StatementOf(o.world, removal) == Some(Remove(org, t.user)) && VaultIn(o.world.db, t.vault, org)
    requires t in o.tokens
    ensures var later := SharingRefresh.Run(SharingRefresh.Apply(o, Serve(removal)), steps);
            t.vault !in later.world.db.refreshes ==> Refused(later, t) || Expired(later, t)
  {
    RemovalOutdatesTokens(o, removal, org, t);
    OutboxStepKeepsInv(o, Serve(removal));
    hide *;
    var removed := SharingRefresh.Apply(o, Serve(removal));
    DueGrows(removed, steps, t.vault, t.user);
    OutboxRunKeepsInv(removed, steps);
    TtlStays(removed, steps);
    KnowingRefuses(SharingRefresh.Run(removed, steps), t);
  }

  /** A coordinator that knows of a removal after the token's version was read, and after it was minted. */
  lemma KnowingRefuses(o: Outbox, t: Token)
    requires OutboxInv(o) && t.accessVersion < Due(o, t.vault, t.user)
    requires t.expiresAt <= DueAt(o, t.vault, t.user) + o.ttl
    ensures t.vault !in o.world.db.refreshes ==> Refused(o, t) || Expired(o, t)
  {
    hide Inv, FlusherRules, TokenRules, CheckRules, GrantDue, BlockRules;
    if t.vault !in o.world.db.refreshes {
      assert Known(o, t.vault);
    }
  }

  lemma RemovalOutdatesTokens(o: Outbox, removal: Step, org: OrgId, t: Token)
    requires OutboxInv(o) && StatementOf(o.world, removal) == Some(Remove(org, t.user)) && VaultIn(o.world.db, t.vault, org)
    requires t in o.tokens
    ensures var removed := SharingRefresh.Apply(o, Serve(removal));
            && t.accessVersion < Due(removed, t.vault, t.user) && removed.ttl == o.ttl
            && t.expiresAt <= DueAt(removed, t.vault, t.user) + o.ttl
  {
    hide SharingService.Apply, Exec, StatementOf, Inv, FlusherRules, Known, CheckRules, BlockRules;
    var removed := SharingRefresh.Apply(o, Serve(removal));
    RemovalStep(o.world, removal, org, t.user, t.vault);
    StepIsItsStatement(o.world, removal);
    RemovedGrantIsRevoked(o.world, org, t.vault, t.user);
    OutboxStepKeepsInv(o, Serve(removal));
    assert TokenRules(o, t);
    assert !(removal.Administer? && removal.statement.Finish?) by { FinishIsNoRemoval(o.world, removal, org, t.user); }
    assert t in removed.tokens;
    assert TokenRules(removed, t) && GrantDue(removed, (t.vault, t.user));
    StepServes(o.world, removal);
    hide ServedBy;
    DueKept(o, SharingService.Apply(o.world, removal), t.vault, t.user);
  }

  lemma FinishIsNoRemoval(w: World, step: Step, org: OrgId, u: UserId)
    requires StatementOf(w, step) == Some(Remove(org, u))
    ensures !(step.Administer? && step.statement.Finish?)
  {
  }

  lemma RemovedGrantIsRevoked(w: World, org: OrgId, v: VaultId, u: UserId)
    requires VaultIn(w.db, v, org) && (v, u) in w.db.grants
    ensures var after := Exec(w, Remove(org, u)).0.db;
            (v, u) in after.grants && after.grants[(v, u)].status.Revoked?
  {
    hide Queued, RevokeWrappers, CancelRequests, CountRemoval;
    assert v in VaultIdsOf(w.db.vaults, org);
  }

  // --------------------------------------------- how long a token is refused

  predicate NoRecording(steps: seq<OutboxStep>) {
    forall i | 0 <= i < |steps| :: !steps[i].RecordVersions?
  }

  /** Whatever happens but a new recording, the token is refused until it expires. */
  ghost predicate RefusedForLife(o: Outbox, t: Token) {
    forall steps | NoRecording(steps) ::
      Expired(SharingRefresh.Run(o, steps), t) || Refused(SharingRefresh.Run(o, steps), t)
  }

  /** Once its vault has left the outbox, a token of a user who was removed since its version was read
      is refused for the rest of its life exactly if it expires no later than the recorded block. */
  lemma OutdatedTokensAreRefusedForLifeExactly(o: Outbox, t: Token)
    requires OutboxInv(o) && t in o.tokens && t.vault !in o.world.db.refreshes
    requires t.stamp < Removals(o.world, t.vault, t.user)
    ensures RefusedForLife(o, t) <==> Expired(o, t) || t.expiresAt <= BlockOf(o, t.vault, t.user).expiresAt
  {
    OutdatedIsBelowMinimum(o, t);
    if Expired(o, t) || t.expiresAt <= BlockOf(o, t.vault, t.user).expiresAt {
      forall steps | NoRecording(steps)
        ensures Expired(SharingRefresh.Run(o, steps), t) || Refused(SharingRefresh.Run(o, steps), t)
      {
        UnrecordedRunKeepsBlocks(o, steps, t.vault, t.user);
      }
    } else {
      var wait := Max(0, BlockOf(o, t.vault, t.user).expiresAt - o.world.now);
      var steps := [Serve(Tick(wait))];
      WaitingPasses(o, wait);
      assert NoRecording(steps);
      assert !Expired(SharingRefresh.Run(o, steps), t) && !Refused(SharingRefresh.Run(o, steps), t);
    }
  }

  lemma OutdatedIsBelowMinimum(o: Outbox, t: Token)
    requires OutboxInv(o) && t in o.tokens && t.vault !in o.world.db.refreshes
    requires t.stamp < Removals(o.world, t.vault, t.user)
    ensures t.accessVersion < Minimum(o, t.vault, t.user)
  {
    hide Inv, FlusherRules, CheckRules, GrantDue;
    assert Known(o, t.vault) && TokenRules(o, t);
  }

  lemma WaitingPasses(o: Outbox, wait: nat)
    ensures var later := SharingRefresh.Run(o, [Serve(Tick(wait))]);
            later.world.now == o.world.now + wait && later.blocks == o.blocks
  {
    hide DueAfter;
    assert [Serve(Tick(wait))][1..] == [];
    assert SharingRefresh.Run(o, [Serve(Tick(wait))]) == SharingRefresh.Apply(o, Serve(Tick(wait)));
  }

  lemma {:induction false} UnrecordedRunKeepsBlocks(o: Outbox, steps: seq<OutboxStep>, v: VaultId, u: UserId)
    requires NoRecording(steps)
    ensures SharingRefresh.Run(o, steps).blocks == o.blocks && o.world.now <= SharingRefresh.Run(o, steps).world.now
    decreases |steps|
  {
    hide SharingRefresh.Apply;
    if steps != [] {
      BlocksAndTimeAdvance(o, steps[0]);
      UnrecordedRunKeepsBlocks(SharingRefresh.Apply(o, steps[0]), steps[1..], v, u);
    }
  }

  lemma BlocksAndTimeAdvance(o: Outbox, step: OutboxStep)
    ensures var next := SharingRefresh.Apply(o, step);
            o.world.now <= next.world.now && (!step.RecordVersions? ==> next.blocks == o.blocks)
  {
    hide SharingService.Apply, AdvanceCheck, Recording, DueAfter;
    if step.Serve? {
      TimeAdvances(o.world, step.step);
    }
  }

  /** A token minted no later than a recording of its user's version expires no later than the block,
      then and whatever happens afterwards. */
  lemma TokensMintedByTheRecordingAreCovered(o: Outbox, f: FlusherId, steps: seq<OutboxStep>, t: Token)
    requires OutboxInv(o) && t in o.tokens && f in o.flushers && o.flushers[f].tasks != []
    requires o.flushers[f].tasks[0].0 == t.vault && o.flushers[f].phase.Snapshotted?
    requires t.user in o.flushers[f].phase.versions && o.flushers[f].phase.versions[t.user] > 1
    ensures var later := SharingRefresh.Run(SharingRefresh.Apply(o, RecordVersions(f)), steps);
            && t.expiresAt <= BlockOf(later, t.vault, t.user).expiresAt
            && (t.vault !in later.world.db.refreshes && t.stamp < Removals(later.world, t.vault, t.user) ==>
                  RefusedForLife(later, t))
  {
    var recorded := SharingRefresh.Apply(o, RecordVersions(f));
    RecordingCovers(o, f, t);
    BlocksLast(recorded, steps, t);
    OutboxStepKeepsInv(o, RecordVersions(f));
    OutboxRunKeepsInv(recorded, steps);
    var later := SharingRefresh.Run(recorded, steps);
    assert t.expiresAt <= BlockOf(later, t.vault, t.user).expiresAt;
    hide *;
    if t.vault !in later.world.db.refreshes && t.stamp < Removals(later.world, t.vault, t.user) {
      OutdatedTokensAreRefusedForLifeExactly(later, t);
    }
  }

  lemma RecordingCovers(o: Outbox, f: FlusherId, t: Token)
    requires OutboxInv(o) && t in o.tokens && f in o.flushers && o.flushers[f].tasks != []
    requires o.flushers[f].tasks[0].0 == t.vault && o.flushers[f].phase.Snapshotted?
    requires t.user in o.flushers[f].phase.versions && o.flushers[f].phase.versions[t.user] > 1
    ensures var recorded := SharingRefresh.Apply(o, RecordVersions(f));
            && (t.vault, t.user) in recorded.blocks && t in recorded.tokens
            && t.expiresAt <= recorded.blocks[(t.vault, t.user)].expiresAt
  {
    hide Inv, FlusherRules, CheckRules, GrantDue, Known, VersionRules;
    assert TokenRules(o, t);
  }

  lemma {:induction false} BlocksLast(o: Outbox, steps: seq<OutboxStep>, t: Token)
    requires (t.vault, t.user) in o.blocks && t in o.tokens
    ensures var later := SharingRefresh.Run(o, steps);
            && (t.vault, t.user) in later.blocks && t in later.tokens
            && o.blocks[(t.vault, t.user)].expiresAt <= later.blocks[(t.vault, t.user)].expiresAt
    decreases |steps|
  {
    hide SharingRefresh.Apply;
    if steps != [] {
      BlockLasts(o, steps[0], t);
      BlocksLast(SharingRefresh.Apply(o, steps[0]), steps[1..], t);
    }
  }

  lemma BlockLasts(o: Outbox, step: OutboxStep, t: Token)
    requires (t.vault, t.user) in o.blocks && t in o.tokens
    ensures var next := SharingRefresh.Apply(o, step);
            && (t.vault, t.user) in next.blocks && t in next.tokens
            && o.blocks[(t.vault, t.user)].expiresAt <= next.blocks[(t.vault, t.user)].expiresAt
  {
    hide SharingService.Apply, AdvanceCheck, DueAfter;
  }

  // ------------------------------------------- a token minted after its check

  /** The moments of a token that was checked before a removal and minted after the flush of it. */
  function Checking(c: CheckId, v: VaultId, u: UserId): seq<OutboxStep> {
    [BeginCheck(c, v, u), ReadForCheck(c, true), ReadForCheck(c, true), ReadForCheck(c, true), ReadForCheck(c, true)]
  }

  function Removing(t: ThreadId, org: OrgId, owner: UserId, u: UserId): seq<OutboxStep> {
    [Serve(Begin(t, ChangeMember(owner, org, u, None))), Serve(Advance(t, true, 0)), Serve(Advance(t, true, 0)),
     Serve(Advance(t, true, 0))]
  }

  function MintingLate(c: CheckId, ttl: nat): seq<OutboxStep>
    requires ttl >= 1000
  {
    [Serve(Tick(1000)), Mint(c), Serve(Tick(ttl - 1000))]
  }

  lemma {:induction false} RunsOn(o: Outbox, first: seq<OutboxStep>, rest: seq<OutboxStep>)
    ensures SharingRefresh.Run(o, first + rest) == SharingRefresh.Run(SharingRefresh.Run(o, first), rest)
    decreases |first|
  {
    hide SharingRefresh.Apply;
    if first == [] {
      assert first + rest == rest;
    } else {
      assert (first + rest)[1..] == first[1..] + rest;
      RunsOn(SharingRefresh.Apply(o, first[0]), first[1..], rest);
    }
  }

  /** A member whose token is being issued, and an owner who can remove the member. */
  predicate MemberWithAccess(o: Outbox, org: OrgId, owner: UserId, v: VaultId, u: UserId) {
    && VaultIn(o.world.db, v, org) && LiveVault(o.world.db, v) && ActiveGrant(o.world, v, u)
    && (org, u) in o.world.db.members && !o.world.db.members[(org, u)].Owner?
    && (org, owner) in o.world.db.members && o.world.db.members[(org, owner)].Owner?
  }

  lemma CheckAnswers(o: Outbox, c: CheckId, org: OrgId, owner: UserId, v: VaultId, u: UserId)
    requires MemberWithAccess(o, org, owner, v, u) && c !in o.checks
    ensures var next := SharingRefresh.Run(o, Checking(c, v, u));
            && next == o.(checks := next.checks) && c in next.checks
            && next.checks[c].vault == v && next.checks[c].user == u
            && next.checks[c].pc == Answered(Ok(CheckedVersion(next.checks[c])))
            && CheckedVersion(next.checks[c]) == o.world.db.grants[(v, u)].accessVersion
  {
    hide Removals, SharingService.Apply, Exec, Recording;
    var steps := Checking(c, v, u);
    RunsFour(o, steps);
    var o1 := SharingRefresh.Apply(o, steps[0]);
    var o2 := SharingRefresh.Apply(o1, steps[1]);
    assert o2 == o.(checks := o2.checks) && o2.checks[c].vaultRow == Some(o.world.db.vaults[v]);
    var o3 := SharingRefresh.Apply(o2, steps[2]);
    assert o3 == o.(checks := o3.checks) && o3.checks[c].pc == AtMember;
    var o4 := SharingRefresh.Apply(o3, steps[3]);
    assert o4 == o.(checks := o4.checks);
    assert steps[4..] == [steps[4]] && steps[4..][1..] == [];
  }

  lemma RemovalThread(w: World, t: ThreadId, org: OrgId, owner: UserId, u: UserId)
    requires t !in w.threads && (org, u) in w.db.members && !w.db.members[(org, u)].Owner?
    requires (org, owner) in w.db.members && w.db.members[(org, owner)].Owner?
    ensures var w1 := SharingService.Apply(w, Begin(t, ChangeMember(owner, org, u, None)));
            var w2 := SharingService.Apply(w1, Advance(t, true, 0));
            var w3 := SharingService.Apply(w2, Advance(t, true, 0));
            var w4 := SharingService.Apply(w3, Advance(t, true, 0));
            w4.db == RemoveMember(w.db, org, u, w.now, w.nextRevision, w.nextRevision + 1) && w4.now == w.now
  {
    hide *;
    RemovalBegins(w, t, ChangeMember(owner, org, u, None));
    var w1 := SharingService.Apply(w, Begin(t, ChangeMember(owner, org, u, None)));
    RemovalReads(w1, t);
    var w2 := SharingService.Apply(w1, Advance(t, true, 0));
    RemovalReads(w2, t);
    RemovalWrites(SharingService.Apply(w2, Advance(t, true, 0)), t);
  }

  lemma RemovalBegins(w: World, t: ThreadId, call: Call)
    requires t !in w.threads && call.ChangeMember?
    ensures var next := SharingService.Apply(w, Begin(t, call));
            && next == w.(threads := next.threads) && t in next.threads
            && next.threads[t].call == call && next.threads[t].pc == ActorRead
  {
  }

  lemma RemovalReads(w: World, t: ThreadId)
    requires t in w.threads && w.threads[t].call.ChangeMember? && w.threads[t].call.newRole.None?
    requires var c := w.threads[t].call;
             && (c.org, c.target) in w.db.members && !w.db.members[(c.org, c.target)].Owner?
             && (c.org, c.user) in w.db.members && w.db.members[(c.org, c.user)].Owner?
    requires w.threads[t].pc.ActorRead? || (w.threads[t].pc.TargetRead? && w.threads[t].role == Some(Owner))
    ensures var next := SharingService.Apply(w, Advance(t, true, 0));
            && next == w.(threads := next.threads) && t in next.threads && next.threads[t].call == w.threads[t].call
            && (w.threads[t].pc.ActorRead? ==> next.threads[t].pc.TargetRead? && next.threads[t].role == Some(Owner))
            && (w.threads[t].pc.TargetRead? ==> next.threads[t].pc.Write?)
  {
    hide Exec;
  }

  lemma RemovalWrites(w: World, t: ThreadId)
    requires t in w.threads && w.threads[t].call.ChangeMember? && w.threads[t].call.newRole.None? && w.threads[t].pc.Write?
    ensures var c := w.threads[t].call;
            var next := SharingService.Apply(w, Advance(t, true, 0));
            && next.db == RemoveMember(w.db, c.org, c.target, w.now, w.nextRevision, w.nextRevision + 1) && next.now == w.now
  {
    hide *;
    WriteStepIsItsStatement(w, t);
    RemovalExecutes(w, w.threads[t].call.org, w.threads[t].call.target);
  }

  lemma WriteStepIsItsStatement(w: World, t: ThreadId)
    requires t in w.threads && w.threads[t].call.ChangeMember? && w.threads[t].call.newRole.None? && w.threads[t].pc.Write?
    ensures var c := w.threads[t].call;
            var next := SharingService.Apply(w, Advance(t, true, 0));
            next.db == Exec(w, Remove(c.org, c.target)).0.db && next.now == Exec(w, Remove(c.org, c.target)).0.now
  {
    hide Exec;
  }

  lemma RemovalExecutes(w: World, org: OrgId, u: UserId)
    ensures var next := Exec(w, Remove(org, u)).0;
            next.db == RemoveMember(w.db, org, u, w.now, w.nextRevision, w.nextRevision + 1) && next.now == w.now
  {
    hide RemoveMember, CountRemoval;
  }

  lemma RemovalIsServed(o: Outbox, t: ThreadId, org: OrgId, owner: UserId, u: UserId)
    requires t !in o.world.threads && (org, u) in o.world.db.members && !o.world.db.members[(org, u)].Owner?
    requires (org, owner) in o.world.db.members && o.world.db.members[(org, owner)].Owner?
    ensures var next := SharingRefresh.Run(o, Removing(t, org, owner, u));
            && next == o.(world := next.world, due := next.due) && next.world.now == o.world.now
            && next.world.db == RemoveMember(o.world.db, org, u, o.world.now, o.world.nextRevision, o.world.nextRevision + 1)
  {
    RemovalThread(o.world, t, org, owner, u);
    var steps := Removing(t, org, owner, u);
    RunsFour(o, steps);
    hide SharingService.Apply, DueAfter, RemoveMember;
    assert steps[4..] == [];
  }

  /** The removed user's block starts now, at the version after the removal. */
  lemma RemovalIsBlocked(o: Outbox, v: VaultId, u: UserId)
    requires (v, u) in o.world.db.grants && o.world.db.grants[(v, u)].accessVersion > 1 && (v, u) !in o.blocks
    ensures var blocks := Recording(o, v, Versions(o.world.db, v));
            && (v, u) in blocks
            && blocks[(v, u)] == Block(o.world.db.grants[(v, u)].accessVersion, o.world.now + BlockTtl(o))
  {
    VersionsAre(o.world.db, v, u);
    hide Versions;
  }

  lemma LateMintIsAccepted(o: Outbox, c: CheckId, v: VaultId, u: UserId)
    requires c in o.checks && o.checks[c].vault == v && o.checks[c].user == u
    requires o.checks[c].pc == Answered(Ok(CheckedVersion(o.checks[c])))
    requires o.ttl >= DEFAULT_SYNC_TOKEN_TTL_MS
    requires (v, u) in o.blocks && o.blocks[(v, u)].expiresAt == o.world.now + o.ttl
    ensures var next := SharingRefresh.Run(o, MintingLate(c, o.ttl));
            var t := NewToken(o.(world := o.world.(now := o.world.now + 1000)), o.checks[c]);
            && t in next.tokens && !Expired(next, t) && !Refused(next, t) && t.accessVersion == CheckedVersion(o.checks[c])
            && next.world.db == o.world.db && next.world.now == o.world.now + o.ttl
  {
    hide DueAfter, Exec;
    var steps := MintingLate(c, o.ttl);
    var o1 := SharingRefresh.Apply(o, steps[0]);
    assert o1 == o.(world := o.world.(now := o.world.now + 1000), due := o1.due);
    var o2 := SharingRefresh.Apply(o1, steps[1]);
    var t := NewToken(o1, o.checks[c]);
    assert o2 == o1.(tokens := o1.tokens + {t}, checks := o1.checks - {c});
    var o3 := SharingRefresh.Apply(o2, steps[2]);
    assert o3 == o2.(world := o2.world.(now := o.world.now + o.ttl), due := o3.due);
    SameToken(o, o1, o.checks[c]);
    SecondsPass(o1, o.checks[c]);
    RunsThree(o, steps);
    hide SharingRefresh.Apply, SharingRefresh.Run, NewToken, MintingLate;
  }

  lemma RunsThree(o: Outbox, steps: seq<OutboxStep>)
    requires |steps| == 3
    ensures SharingRefresh.Run(o, steps)
         == SharingRefresh.Apply(SharingRefresh.Apply(SharingRefresh.Apply(o, steps[0]), steps[1]), steps[2])
  {
    hide SharingRefresh.Apply;
    assert steps[1..][1..] == steps[2..] && steps[2..][1..] == [];
    var o1 := SharingRefresh.Apply(o, steps[0]);
    var o2 := SharingRefresh.Apply(o1, steps[1]);
    assert SharingRefresh.Run(o1, steps[1..]) == SharingRefresh.Run(o2, steps[2..]);
    assert SharingRefresh.Run(o2, steps[2..]) == SharingRefresh.Apply(o2, steps[2]);
  }

  lemma SameToken(o: Outbox, later: Outbox, c: Check)
    requires later.world.now == o.world.now + 1000 && later.ttl == o.ttl
    ensures NewToken(o.(world := o.world.(now := o.world.now + 1000)), c) == NewToken(later, c)
  {
  }

  lemma SecondsPass(o: Outbox, c: Check)
    ensures NewToken(o, c).expiresAt > o.world.now - 1000 + o.ttl
  {
  }

  /** A whole issue of a token around a removal: checked before, minted a second after the flush. */
  function LateIssue(o: Outbox, c: CheckId, t: ThreadId, f: FlusherId, org: OrgId, owner: UserId, v: VaultId, u: UserId):
    seq<OutboxStep>
    requires o.ttl >= 1000
  {
    var revision := if v in o.world.db.refreshes then o.world.nextRevision + 1 else o.world.nextRevision;
    Checking(c, v, u) + (Removing(t, org, owner, u) + (Flushing(f, v, revision) + MintingLate(c, o.ttl)))
  }

  /** A check that answered before its user was removed, with the vault's row still in the outbox. */
  predicate AnsweredBeforeRemoval(o: Outbox, c: CheckId, org: OrgId, v: VaultId, u: UserId) {
    && c in o.checks && o.checks[c].vault == v && o.checks[c].user == u
    && o.checks[c].pc == Answered(Ok(CheckedVersion(o.checks[c])))
    && v in o.world.db.refreshes && LiveVault(o.world.db, v) && (org, u) !in o.world.db.members
    && (v, u) in o.world.db.grants && o.world.db.grants[(v, u)].accessVersion > 1 && (v, u) !in o.blocks
  }

  lemma RemovedWhileIssuing(o: Outbox, c: CheckId, t: ThreadId, org: OrgId, owner: UserId, v: VaultId, u: UserId, revision: Revision)
    requires MemberWithAccess(o, org, owner, v, u) && o.world.db.grants[(v, u)].accessVersion >= 1
    requires c !in o.checks && t !in o.world.threads && (v, u) !in o.blocks
    requires revision == if v in o.world.db.refreshes then o.world.nextRevision + 1 else o.world.nextRevision
    ensures var next := SharingRefresh.Run(SharingRefresh.Run(o, Checking(c, v, u)), Removing(t, org, owner, u));
            && AnsweredBeforeRemoval(next, c, org, v, u) && next.world.db.refreshes[v] == revision
            && next.ttl == o.ttl && next.flushers == o.flushers
  {
    hide *;
    AccessMeans(o, org, owner, v, u);
    RemovedTables(o.world, org, v, u, revision);
    CheckAnswers(o, c, org, owner, v, u);
    var o1 := SharingRefresh.Run(o, Checking(c, v, u));
    RemovalIsServed(o1, t, org, owner, u);
    Answers(SharingRefresh.Run(o1, Removing(t, org, owner, u)), c, org, v, u);
  }

  lemma AccessMeans(o: Outbox, org: OrgId, owner: UserId, v: VaultId, u: UserId)
    requires MemberWithAccess(o, org, owner, v, u)
    ensures VaultIn(o.world.db, v, org) && LiveVault(o.world.db, v) && ActiveGrant(o.world, v, u)
    ensures (org, u) in o.world.db.members && !o.world.db.members[(org, u)].Owner?
    ensures (org, owner) in o.world.db.members && o.world.db.members[(org, owner)].Owner?
  {
  }

  lemma Answers(o: Outbox, c: CheckId, org: OrgId, v: VaultId, u: UserId)
    requires c in o.checks && o.checks[c].vault == v && o.checks[c].user == u
    requires o.checks[c].pc == Answered(Ok(CheckedVersion(o.checks[c])))
    requires v in o.world.db.refreshes && LiveVault(o.world.db, v) && (org, u) !in o.world.db.members
    requires (v, u) in o.world.db.grants && o.world.db.grants[(v, u)].accessVersion > 1 && (v, u) !in o.blocks
    ensures AnsweredBeforeRemoval(o, c, org, v, u)
  {
  }

  lemma FlushedThenMinted(o: Outbox, c: CheckId, f: FlusherId, org: OrgId, v: VaultId, u: UserId)
    requires AnsweredBeforeRemoval(o, c, org, v, u) && f !in o.flushers && o.ttl >= DEFAULT_SYNC_TOKEN_TTL_MS
    ensures var flushed := SharingRefresh.Run(o, Flushing(f, v, o.world.db.refreshes[v]));
            AcceptedAfterRemoval(SharingRefresh.Run(flushed, MintingLate(c, o.ttl)), org, v, u)
  {
    hide SharingRefresh.Run, Recording, Versions, Flushing, MintingLate, NewToken, Expired, Refused, LiveVault;
    UndisturbedFlushClears(o, f, v);
    RemovalIsBlocked(o, v, u);
    var flushed := SharingRefresh.Run(o, Flushing(f, v, o.world.db.refreshes[v]));
    LateMintIsAccepted(flushed, c, v, u);
    CheckedToken(flushed, c, v, u);
  }

  /** The vault has left the outbox and the user is no member any more, but an unexpired token of the
      user is not refused. */
  predicate AcceptedAfterRemoval(o: Outbox, org: OrgId, v: VaultId, u: UserId) {
    && v !in o.world.db.refreshes && (org, u) !in o.world.db.members
    && exists token | token in o.tokens :: token.vault == v && token.user == u && !Expired(o, token) && !Refused(o, token)
  }

  /** A token that is checked before a removal and minted after the coordinator recorded it outlives
      the coordinator's block. */
  lemma LateTokenOutlivesItsBlock(o: Outbox, c: CheckId, t: ThreadId, f: FlusherId, org: OrgId, owner: UserId, v: VaultId,
                                  u: UserId)
    requires OutboxInv(o) && MemberWithAccess(o, org, owner, v, u)
    requires c !in o.checks && t !in o.world.threads && f !in o.flushers && (v, u) !in o.blocks
    requires o.ttl >= DEFAULT_SYNC_TOKEN_TTL_MS
    ensures AcceptedAfterRemoval(SharingRefresh.Run(o, LateIssue(o, c, t, f, org, owner, v, u)), org, v, u)
  {
    assert o.ttl >= 1000;
    hide *;
    var revision := if v in o.world.db.refreshes then o.world.nextRevision + 1 else o.world.nextRevision;
    var mint := MintingLate(c, o.ttl);
    var flush := Flushing(f, v, revision);
    var remove := Removing(t, org, owner, u);
    LateIssueIs(o, c, t, f, org, owner, v, u);
    InvOfOutbox(o);
    AccessMeans(o, org, owner, v, u);
    GrantExists(o.world, v, u);
    PositiveVersions(o.world, v, u);
    RemovedWhileIssuing(o, c, t, org, owner, v, u, revision);
    RunsOn(o, Checking(c, v, u), remove + (flush + mint));
    var o1 := SharingRefresh.Run(o, Checking(c, v, u));
    RunsOn(o1, remove, flush + mint);
    var o2 := SharingRefresh.Run(o1, remove);
    RunsOn(o2, flush, mint);
    FlushedThenMinted(o2, c, f, org, v, u);
  }

  lemma LateIssueIs(o: Outbox, c: CheckId, t: ThreadId, f: FlusherId, org: OrgId, owner: UserId, v: VaultId, u: UserId)
    requires o.ttl >= 1000
    ensures var revision := if v in o.world.db.refreshes then o.world.nextRevision + 1 else o.world.nextRevision;
            LateIssue(o, c, t, f, org, owner, v, u)
            == Checking(c, v, u) + (Removing(t, org, owner, u) + (Flushing(f, v, revision) + MintingLate(c, o.ttl)))
  {
  }

  lemma InvOfOutbox(o: Outbox)
    requires OutboxInv(o)
    ensures Inv(o.world)
  {
    hide Inv;
  }

  lemma GrantExists(w: World, v: VaultId, u: UserId)
    requires ActiveGrant(w, v, u)
    ensures (v, u) in w.db.grants
  {
  }

  lemma CheckedToken(o: Outbox, c: CheckId, v: VaultId, u: UserId)
    requires c in o.checks && o.checks[c].vault == v && o.checks[c].user == u
    ensures var t := NewToken(o.(world := o.world.(now := o.world.now + 1000)), o.checks[c]);
            t.vault == v && t.user == u
  {
  }

  lemma RemovedTables(w: World, org: OrgId, v: VaultId, u: UserId, revision: Revision)
    requires VaultIn(w.db, v, org) && LiveVault(w.db, v) && ActiveGrant(w, v, u) && w.db.grants[(v, u)].accessVersion >= 1
    requires revision == if v in w.db.refreshes then w.nextRevision + 1 else w.nextRevision
    ensures var db := RemoveMember(w.db, org, u, w.now, w.nextRevision, w.nextRevision + 1);
            && v in db.refreshes && db.refreshes[v] == revision && (org, u) !in db.members && LiveVault(db, v)
            && (v, u) in db.grants && db.grants[(v, u)].accessVersion > 1
  {
    hide RevokeWrappers, CancelRequests;
    assert v in VaultIdsOf(w.db.vaults, org);
  }

  /** Such a state is reached as soon as an admin has created a vault. */
  lemma MembersWithAccessAreReached(envelope: PasswordEnvelope, now: int, ttl: nat)
    ensures var members := map[(1, 10) := Owner, (1, 20) := Admin];
            var start := SharingRefresh.Initial(members, map[], now, ttl);
            var o := SharingRefresh.Apply(start, Serve(Administer(InsertVault(5, 1, 20, envelope, 0))));
            && OutboxInv(o) && MemberWithAccess(o, 1, 10, 5, 20) && o.ttl == ttl
            && o.checks == map[] && o.world.threads == map[] && o.flushers == map[] && o.blocks == map[]
  {
    var members := map[(1, 10) := Owner, (1, 20) := Admin];
    var start := SharingRefresh.Initial(members, map[], now, ttl);
    var s := InsertVault(5, 1, 20, envelope, 0);
    AdminCreatesVault(start.world, s);
    InitialOutboxInv(members, map[], now, ttl);
    var o := SharingRefresh.Apply(start, Serve(Administer(s)));
    assert o == start.(world := Exec(start.world, s).0, due := o.due);
    assert ActiveGrant(o.world, 5, 20) && MemberWithAccess(o, 1, 10, 5, 20);
    hide *;
    OutboxStepKeepsInv(start, Serve(Administer(s)));
  }

  lemma AdminCreatesVault(w: World, s: Statement)
    requires s.InsertVault? && s.maxVaults == 0 && w.db.vaults == map[] && w.db.grants == map[] && w.db.wrappers == map[]
    requires (s.org, s.user) in w.db.members && w.db.members[(s.org, s.user)].Admin?
    ensures var next := Exec(w, s).0;
            && VaultIn(next.db, s.vault, s.org) && LiveVault(next.db, s.vault) && ActiveGrant(next, s.vault, s.user)
            && next.db.members == w.db.members && next.threads == w.threads
  {
    Untouched(w, s);
    hide MembersOf, LiveVaultIdsOf;
  }
}
