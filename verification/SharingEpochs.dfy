/** Access epochs over whole runs: versions only grow, a removal ends every version read before it,
    and access returns only with a new membership and a newly requested key. */
module SharingEpochs {
  import opened Wrappers
  import opened VaultCrypto
  import opened SharingTables
  import opened SharingService
  import opened SharingSafety

  datatype AccessError = VaultAccessDenied | SharingSuspended

  predicate IsSuspended(db: Db, v: VaultId, sharingEnabled: bool) {
    LiveVault(db, v) && db.vaults[v].sharedAt.Some? && !sharingEnabled
  }

  datatype CheckPc = AtVault | AtGrant | AtMember | AtSuspension | Answered(result: Result<nat, AccessError>)

  /** The check made when a sync token is issued, read by read. It answers with the access version of
      the grant it read; `stamp` is history: how often the user had been removed at that moment. */
  datatype Check = Check(vault: VaultId, user: UserId, pc: CheckPc, vaultRow: Option<Vault>, grant: Option<Grant>, stamp: nat)

  function NewCheck(v: VaultId, u: UserId): Check {
    Check(v, u, AtVault, None, None, 0)
  }

  function CheckedVersion(c: Check): nat {
    if c.grant.Some? then c.grant.value.accessVersion else 0
  }

  function AdvanceCheck(w: World, c: Check, sharingEnabled: bool): Check {
    match c.pc
    case AtVault => c.(vaultRow := if LiveVault(w.db, c.vault) then Some(w.db.vaults[c.vault]) else None, pc := AtGrant)
    case AtGrant =>
      var grant := GrantOf(w.db, c.vault, c.user);
      c.(grant := grant, stamp := Removals(w, c.vault, c.user),
         pc := if c.vaultRow.Some? && grant.Some? && grant.value.status.Active? then AtMember
               else Answered(Err(VaultAccessDenied)))
    case AtMember =>
      c.(pc := if c.vaultRow.None? || (c.vaultRow.value.org, c.user) !in w.db.members then Answered(Err(VaultAccessDenied))
               else if c.vaultRow.value.sharedAt.Some? then AtSuspension else Answered(Ok(CheckedVersion(c))))
    case AtSuspension =>
      c.(pc := Answered(if IsSuspended(w.db, c.vault, sharingEnabled) then Err(SharingSuspended) else Ok(CheckedVersion(c))))
    case Answered(_) => c
  }

  predicate ActiveGrant(w: World, v: VaultId, u: UserId) {
    (v, u) in w.db.grants && w.db.grants[(v, u)].status.Active?
  }

  /** A version under which no grant is usable, now or ever again. */
  predicate Dead(g: GrantView, x: nat) {
    if g.grant.None? then x == 0
    else x <= g.grant.value.accessVersion && (x == g.grant.value.accessVersion ==> g.grant.value.status.Revoked?)
  }

  // ------------------------------------------------------------ one statement

  lemma TransitionIsMonotone(a: GrantView, b: GrantView)
    requires Transition(a, b)
    ensures a.removals <= b.removals
    ensures a.grant.Some? ==> b.grant.Some? && a.grant.value.accessVersion <= b.grant.value.accessVersion
    ensures forall x :: Dead(a, x) ==> Dead(b, x)
    ensures a.removals < b.removals ==> b.grant.Some? ==> b.grant.value.status.Revoked?
  {
  }

  /** The statement a step executes, if any. */
  function StatementOf(w: World, step: Step): Option<Statement> {
    match step
    case Advance(t, enabled, freshId) => if t in w.threads then Next(w, w.threads[t], enabled, freshId).statement else None
    case Administer(s) => if Administrative(s) then Some(s) else None
    case _ => None
  }

  lemma StepIsItsStatement(w: World, step: Step)
    requires Inv(w)
    ensures var next := Apply(w, step);
            var s := StatementOf(w, step);
            && (s.Some? ==> Justified(w, s.value))
            && (if s.Some? then
                  && next.nextRevision == Exec(w, s.value).0.nextRevision
                  && next.db == Exec(w, s.value).0.db && next.removals == Exec(w, s.value).0.removals
                  && next.stamps == Exec(w, s.value).0.stamps && next.activations == Exec(w, s.value).0.activations
                else
                  && next.nextRevision == w.nextRevision && next.db == w.db && next.removals == w.removals
                  && next.stamps == w.stamps && next.activations == w.activations)
  {
    hide Exec, EpochRules, InvitationRules, KeyRequestRules, ThreadRules, Next, Justified;
    if step.Advance? && step.thread in w.threads {
      ThreadProceeds(w, w.threads[step.thread], step.sharingEnabled, step.freshId);
    }
    if step.Administer? && Administrative(step.statement) {
      AdministrativeIsJustified(w, step.statement);
    }
  }

  lemma AdministrativeIsJustified(w: World, s: Statement)
    requires Administrative(s)
    ensures Justified(w, s)
  {
  }

  lemma StepChangesView(w: World, step: Step, v: VaultId, u: UserId)
    requires Inv(w)
    ensures Transition(View(w, v, u), View(Apply(w, step), v, u))
  {
    hide Apply, Exec, StatementOf, Transition, Justified;
    StepIsItsStatement(w, step);
    var s := StatementOf(w, step);
    if s.Some? {
      ViewChanges(w, s.value, v, u);
      assert View(Apply(w, step), v, u) == View(Exec(w, s.value).0, v, u);
    } else {
      SameIsTransition(View(w, v, u));
      assert View(Apply(w, step), v, u) == View(w, v, u);
    }
  }

  // -------------------------------------------------------------------- runs

  /** The version of a grant never decreases, and a version once dead stays dead, whatever else runs. */
  lemma {:induction false} EpochsOnlyAdvance(w: World, steps: seq<Step>, v: VaultId, u: UserId)
    requires Inv(w)
    ensures var a, b := View(w, v, u), View(Run(w, steps), v, u);
            && a.removals <= b.removals
            && (a.grant.Some? ==> b.grant.Some? && a.grant.value.accessVersion <= b.grant.value.accessVersion)
            && (forall x :: Dead(a, x) ==> Dead(b, x))
    decreases |steps|
  {
    hide Inv, Apply, View, Dead, Transition;
    if steps != [] {
      StepKeepsInv(w, steps[0]);
      StepChangesView(w, steps[0], v, u);
      TransitionIsMonotone(View(w, v, u), View(Apply(w, steps[0]), v, u));
      EpochsOnlyAdvance(Apply(w, steps[0]), steps[1..], v, u);
    }
  }

  /** A version read when there was no grant, or from a revoked one, never completes a request,
      however the reads and writes of the call interleave with removals and invitations. */
  lemma DeadVersionNeverCompletes(w: World, steps: seq<Step>, row: KeyRequest, id: RequestId)
    requires Inv(w) && Dead(View(w, row.vault, row.user), row.accessVersion)
    ensures var later := Run(w, steps);
            !MayComplete(later.db, id, row, later.now) && !Enrolled(later.db, row.vault, row.user, row.accessVersion)
  {
    hide Inv, Run;
    EpochsOnlyAdvance(w, steps, row.vault, row.user);
    assert Dead(View(Run(w, steps), row.vault, row.user), row.accessVersion);
  }

  /** In every reachable state a request can complete only if its user was never removed from the
      vault since the request's access version was read. */
  lemma CompletionMeansNoRemovalSince(members: map<(OrgId, UserId), Role>, emails: map<UserId, Email>, now: int,
                                      steps: seq<Step>, id: RequestId)
    ensures var w := Run(Initial(members, emails, now), steps);
            id in w.db.requests && MayComplete(w.db, id, w.db.requests[id], w.now) ==>
              Stamp(w, id) == Removals(w, w.db.requests[id].vault, w.db.requests[id].user)
  {
    InitialInv(members, emails, now);
    RunKeepsInv(Initial(members, emails, now), steps);
    var w := Run(Initial(members, emails, now), steps);
    if id in w.db.requests {
      assert RequestFresh(w, id);
    }
  }

  /** In every reachable state each vault and user has at most one open request, ciphertext is kept
      exactly while a request is approved, and no recipient approved a request of their own. */
  lemma KeyRequestsObeyTheirRules(members: map<(OrgId, UserId), Role>, emails: map<UserId, Email>, now: int, steps: seq<Step>)
    ensures KeyRequestRules(Run(Initial(members, emails, now), steps).db.requests)
  {
    InitialInv(members, emails, now);
    RunKeepsInv(Initial(members, emails, now), steps);
  }

  // ------------------------------------------------------- access after removal

  /** This step completes an approved request of the user for the vault whose version was read when
      the user had been removed at least `n` times. */
  predicate CompletesFreshRequest(w: World, step: Step, v: VaultId, u: UserId, n: nat) {
    exists r | r in w.db.requests ::
      && w.db.requests[r].vault == v && w.db.requests[r].user == u && w.db.requests[r].status.Approved?
      && Stamp(w, r) >= n
      && r in Apply(w, step).db.requests && Apply(w, step).db.requests[r].status.Completed?
  }

  predicate Joins(w: World, step: Step, org: OrgId, u: UserId) {
    (org, u) !in w.db.members && (org, u) in Apply(w, step).db.members
  }

  lemma OnlyCompletionActivates(w: World, step: Step, v: VaultId, u: UserId)
    requires Inv(w) && v in w.db.vaults && !ActiveGrant(w, v, u) && ActiveGrant(Apply(w, step), v, u)
    ensures CompletesFreshRequest(w, step, v, u, Removals(w, v, u))
  {
    hide Exec, Apply, StatementOf, EpochRules, InvitationRules, KeyRequestRules, ThreadRules, Justified;
    StepIsItsStatement(w, step);
    var s := StatementOf(w, step);
    if s.Some? {
      Untouched(w, s.value);
      if s.value.CompleteRequest? {
        CompletionActivates(w, s.value, v, u);
        assert s.value.request in Apply(w, step).db.requests;
      } else {
        OthersDoNotActivate(w, s.value, v, u);
      }
    }
  }

  lemma CompletionActivates(w: World, s: Statement, v: VaultId, u: UserId)
    requires Inv(w) && Justified(w, s) && s.CompleteRequest?
    requires !ActiveGrant(w, v, u) && ActiveGrant(Exec(w, s).0, v, u)
    ensures var r := s.request;
            && r in w.db.requests && w.db.requests[r].vault == v && w.db.requests[r].user == u
            && w.db.requests[r].status.Approved? && Stamp(w, r) == Removals(w, v, u)
            && r in Exec(w, s).0.db.requests && Exec(w, s).0.db.requests[r].status.Completed?
  {
    hide WrittenWrapper, ThreadRules, KeyRequestRules, InvitationRules;
    assert MayComplete(w.db, s.request, s.row, w.now);
    assert RequestFresh(w, s.request);
  }

  lemma OthersDoNotActivate(w: World, s: Statement, v: VaultId, u: UserId)
    requires !s.CompleteRequest? && v in w.db.vaults && !ActiveGrant(w, v, u)
    ensures !ActiveGrant(Exec(w, s).0, v, u)
  {
    hide Exec, Execute;
    Untouched(w, s);
    if WritesGrants(s) {
      GrantsAfter(w, s);
    }
  }

  lemma GrantsAfter(w: World, s: Statement)
    requires WritesGrants(s) && !s.CompleteRequest?
    ensures Exec(w, s).0.db.grants ==
              match s
              case Enroll(v, u) => EnsureEnrollment(w.db, v, u).grants
              case Remove(org, u) => RevokeGrants(w.db.grants, VaultIdsOf(w.db.vaults, org), u, w.now)
              case InsertVault(v, org, u, envelope, maxVaults) => CreateVault(w.db, v, org, u, envelope, maxVaults, w.now).0.grants
              case _ => w.db.grants
  {
    hide RevokeGrants, VaultIdsOf, EnsureEnrollment, CreateVault;
    Untouched(w, s);
  }

  lemma VaultsStay(w: World, s: Statement, v: VaultId)
    requires v in w.db.vaults
    ensures v in Exec(w, s).0.db.vaults && Exec(w, s).0.db.vaults[v].org == w.db.vaults[v].org
  {
    hide Queued, LiveVaultIdsOf, MembersOf;
    Untouched(w, s);
  }

  lemma StepKeepsVault(w: World, step: Step, v: VaultId)
    requires Inv(w) && v in w.db.vaults
    ensures v in Apply(w, step).db.vaults && Apply(w, step).db.vaults[v].org == w.db.vaults[v].org
  {
    hide Exec, Apply, StatementOf;
    StepIsItsStatement(w, step);
    if StatementOf(w, step).Some? {
      VaultsStay(w, StatementOf(w, step).value, v);
    }
  }

  lemma {:induction false} ActivationIsOnTheWay(w: World, steps: seq<Step>, v: VaultId, u: UserId, n: nat)
    requires Inv(w) && v in w.db.vaults && !ActiveGrant(w, v, u) && ActiveGrant(Run(w, steps), v, u)
    requires n <= Removals(w, v, u)
    ensures exists i | 0 <= i < |steps| :: CompletesFreshRequest(Run(w, steps[..i]), steps[i], v, u, n)
    decreases |steps|
  {
    hide Inv, Apply, ActiveGrant, CompletesFreshRequest, Removals;
    var next := Apply(w, steps[0]);
    if ActiveGrant(next, v, u) {
      OnlyCompletionActivates(w, steps[0], v, u);
      FresherIsEnough(w, steps[0], v, u, Removals(w, v, u), n);
      assert Run(w, steps[..0]) == w;
    } else {
      StepKeepsInv(w, steps[0]);
      StepKeepsVault(w, steps[0], v);
      StepChangesView(w, steps[0], v, u);
      TransitionIsMonotone(View(w, v, u), View(next, v, u));
      ActivationIsOnTheWay(next, steps[1..], v, u, n);
      var i :| 0 <= i < |steps[1..]| && CompletesFreshRequest(Run(next, steps[1..][..i]), steps[1..][i], v, u, n);
      assert steps[..i + 1][1..] == steps[1..][..i] && steps[1..][i] == steps[i + 1];
      assert Run(w, steps[..i + 1]) == Run(next, steps[1..][..i]);
    }
  }

  lemma FresherIsEnough(w: World, step: Step, v: VaultId, u: UserId, m: nat, n: nat)
    requires CompletesFreshRequest(w, step, v, u, m) && n <= m
    ensures CompletesFreshRequest(w, step, v, u, n)
  {
    hide Apply;
  }

  lemma {:induction false} JoiningIsOnTheWay(w: World, steps: seq<Step>, org: OrgId, u: UserId)
    requires (org, u) !in w.db.members && (org, u) in Run(w, steps).db.members
    ensures exists i | 0 <= i < |steps| :: Joins(Run(w, steps[..i]), steps[i], org, u)
    decreases |steps|
  {
    hide Apply;
    var next := Apply(w, steps[0]);
    if (org, u) in next.db.members {
      assert Run(w, steps[..0]) == w;
      assert Joins(Run(w, steps[..0]), steps[0], org, u);
    } else {
      JoiningIsOnTheWay(next, steps[1..], org, u);
      var i :| 0 <= i < |steps[1..]| && Joins(Run(next, steps[1..][..i]), steps[1..][i], org, u);
      assert steps[..i + 1][1..] == steps[1..][..i] && steps[1..][i] == steps[i + 1];
      assert Run(w, steps[..i + 1]) == Run(next, steps[1..][..i]);
      assert Joins(Run(w, steps[..i + 1]), steps[i + 1], org, u);
    }
  }

  // ------------------------------------------------ the check among other calls

  /** How many steps of a run are done when a check makes each of its reads. */
  datatype Moments = Moments(vault: nat, grant: nat, member: nat, suspension: nat)

  predicate Ordered(m: Moments, steps: seq<Step>) {
    m.vault <= m.grant <= m.member <= m.suspension <= |steps|
  }

  function At(w: World, steps: seq<Step>, i: nat): World
    requires i <= |steps|
  {
    Run(w, steps[..i])
  }

  /** A check whose reads fall between the steps of a run. */
  function Observe(w: World, steps: seq<Step>, v: VaultId, u: UserId, m: Moments, sharingEnabled: bool): Check
    requires Ordered(m, steps)
  {
    var readVault := AdvanceCheck(At(w, steps, m.vault), NewCheck(v, u), sharingEnabled);
    var readGrant := AdvanceCheck(At(w, steps, m.grant), readVault, sharingEnabled);
    var readMember := AdvanceCheck(At(w, steps, m.member), readGrant, sharingEnabled);
    AdvanceCheck(At(w, steps, m.suspension), readMember, sharingEnabled)
  }

  /** What an answer says of the moments it was read at. */
  lemma MomentsAreInTheRun(m: Moments, steps: seq<Step>)
    requires Ordered(m, steps)
    ensures m.vault <= m.grant <= m.member <= |steps|
  {
  }

  lemma AnswerNeeds(w: World, steps: seq<Step>, v: VaultId, u: UserId, m: Moments, enabled: bool, x: nat)
    requires Ordered(m, steps) && Observe(w, steps, v, u, m, enabled).pc == Answered(Ok(x))
    ensures LiveVault(At(w, steps, m.vault).db, v) && v in At(w, steps, m.vault).db.vaults
    ensures ActiveGrant(At(w, steps, m.grant), v, u) && At(w, steps, m.grant).db.grants[(v, u)].accessVersion == x
    ensures (At(w, steps, m.vault).db.vaults[v].org, u) in At(w, steps, m.member).db.members
  {
    hide Run, At, IsSuspended, Removals;
  }

  /** Since a version `x` was read from an active grant, with the user removed `stamp` times: it is
      the grant's own until the next removal, and dead from then on. */
  predicate Tracks(g: GrantView, x: nat, stamp: nat) {
    && g.grant.Some?
    && if g.removals == stamp then g.grant.value.accessVersion == x && !g.grant.value.status.Revoked?
       else stamp < g.removals && Dead(g, x)
  }

  lemma TransitionKeepsTrack(a: GrantView, b: GrantView, x: nat, stamp: nat)
    requires Transition(a, b) && Tracks(a, x, stamp)
    ensures Tracks(b, x, stamp)
  {
  }

  lemma {:induction false} RunKeepsTrack(w: World, steps: seq<Step>, v: VaultId, u: UserId, x: nat, stamp: nat)
    requires Inv(w) && Tracks(View(w, v, u), x, stamp)
    ensures Tracks(View(Run(w, steps), v, u), x, stamp)
    decreases |steps|
  {
    hide Inv, Apply, View, Tracks, Transition;
    if steps != [] {
      StepKeepsInv(w, steps[0]);
      StepChangesView(w, steps[0], v, u);
      TransitionKeepsTrack(View(w, v, u), View(Apply(w, steps[0]), v, u), x, stamp);
      RunKeepsTrack(Apply(w, steps[0]), steps[1..], v, u, x, stamp);
    }
  }

  lemma {:induction false} RunJoins(w: World, first: seq<Step>, rest: seq<Step>)
    ensures Run(w, first + rest) == Run(Run(w, first), rest)
    decreases |first|
  {
    hide Apply;
    if first == [] {
      assert first + rest == rest;
    } else {
      assert (first + rest)[1..] == first[1..] + rest;
      RunJoins(Apply(w, first[0]), first[1..], rest);
    }
  }

  lemma Between(w: World, steps: seq<Step>, i: nat, j: nat)
    requires i <= j <= |steps|
    ensures Run(At(w, steps, i), steps[i..j]) == At(w, steps, j)
  {
    hide Run;
    assert steps[..i] + steps[i..j] == steps[..j];
    RunJoins(w, steps[..i], steps[i..j]);
  }

  lemma OneStep(w: World, steps: seq<Step>, j: nat)
    requires j < |steps|
    ensures Apply(At(w, steps, j), steps[j]) == At(w, steps, j + 1)
  {
    hide Apply;
    Between(w, steps, j, j + 1);
    assert steps[j..j + 1] == [steps[j]];
    assert Run(Apply(At(w, steps, j), steps[j]), [steps[j]][1..]) == Apply(At(w, steps, j), steps[j]);
  }

  lemma InvAt(w: World, steps: seq<Step>, i: nat)
    requires Inv(w) && i <= |steps|
    ensures Inv(At(w, steps, i))
  {
    RunKeepsInv(w, steps[..i]);
  }

  /** Whatever ran between its reads, a check answers with a version that is the user's own as long as
      the user is not removed after the grant was read, and is dead from the first such removal on. */
  lemma CheckedVersionIsCurrentOrDead(w: World, steps: seq<Step>, v: VaultId, u: UserId, m: Moments, enabled: bool, x: nat)
    requires Inv(w) && Ordered(m, steps) && Observe(w, steps, v, u, m, enabled).pc == Answered(Ok(x))
    ensures var later := Run(w, steps);
            && GrantOf(later.db, v, u).Some?
            && (Removals(later, v, u) == Removals(At(w, steps, m.grant), v, u) ==>
                  Enrolled(later.db, v, u, x))
            && (Removals(later, v, u) != Removals(At(w, steps, m.grant), v, u) ==> Dead(View(later, v, u), x))
  {
    AnswerNeeds(w, steps, v, u, m, enabled, x);
    InvAt(w, steps, m.grant);
    var read := At(w, steps, m.grant);
    assert Tracks(View(read, v, u), x, Removals(read, v, u));
    hide Inv, At, Observe, Run;
    RunKeepsTrack(read, steps[m.grant..|steps|], v, u, x, Removals(read, v, u));
    Between(w, steps, m.grant, |steps|);
    assert At(w, steps, |steps|) == Run(w, steps) by { WholeRun(w, steps); }
  }

  /** What must hold, and when, for a check to answer with an access version: at each read the vault is
      live, the grant active, the user a member, and a vault that was shared when its row was read is
      deleted, unshared or not suspended at the last read. */
  predicate Admits(readVault: World, readGrant: World, readMember: World, readSuspension: World, v: VaultId, u: UserId,
                   enabled: bool) {
    && v in readVault.db.vaults && readVault.db.vaults[v].deletedAt.None?
    && (v, u) in readGrant.db.grants && readGrant.db.grants[(v, u)].status.Active?
    && (readVault.db.vaults[v].org, u) in readMember.db.members
    && (readVault.db.vaults[v].sharedAt.Some? ==>
          || v !in readSuspension.db.vaults || readSuspension.db.vaults[v].deletedAt.Some?
          || readSuspension.db.vaults[v].sharedAt.None? || enabled)
  }

  /** A check answers exactly if it is admitted, whatever runs between its reads. It is refused as
      suspended exactly if only the suspension read stands in the way. */
  lemma ChecksAreExact(w: World, steps: seq<Step>, v: VaultId, u: UserId, m: Moments, enabled: bool)
    requires Ordered(m, steps)
    ensures var answer := Observe(w, steps, v, u, m, enabled).pc;
            var a, b, c, d := At(w, steps, m.vault), At(w, steps, m.grant), At(w, steps, m.member), At(w, steps, m.suspension);
            && answer.Answered?
            && (answer.result.Ok? <==> Admits(a, b, c, d, v, u, enabled))
            && (answer.result.Ok? ==> answer.result.value == b.db.grants[(v, u)].accessVersion)
            && (answer.result == Err(SharingSuspended) <==>
                  Admits(a, b, c, d, v, u, true) && !Admits(a, b, c, d, v, u, enabled))
            && (answer.result == Err(VaultAccessDenied) <==> !Admits(a, b, c, d, v, u, true))
  {
    hide Run, At, Removals;
  }

  /** A check that nothing disturbs answers for the tables as they are: it admits active members of live
      vaults, and pauses a shared vault exactly while sharing is off. */
  lemma UndisturbedCheckIsExact(w: World, v: VaultId, u: UserId, enabled: bool)
    ensures var answer := Observe(w, [], v, u, Moments(0, 0, 0, 0), enabled).pc;
            var member := && v in w.db.vaults && w.db.vaults[v].deletedAt.None?
                          && (v, u) in w.db.grants && w.db.grants[(v, u)].status.Active?
                          && (w.db.vaults[v].org, u) in w.db.members;
            && answer.Answered?
            && (answer.result.Ok? <==> member && (w.db.vaults[v].sharedAt.None? || enabled))
            && (answer.result.Ok? ==> answer.result.value == w.db.grants[(v, u)].accessVersion)
            && (answer.result == Err(SharingSuspended) <==> member && w.db.vaults[v].sharedAt.Some? && !enabled)
  {
    assert At(w, [], 0) == w;
    ChecksAreExact(w, [], v, u, Moments(0, 0, 0, 0), enabled);
    hide At, Observe;
  }

  lemma WholeRun(w: World, steps: seq<Step>)
    ensures At(w, steps, |steps|) == Run(w, steps)
  {
    assert steps[..|steps|] == steps;
  }

  /** A check that answers and still reads a membership after a removal: the user joined in between. */
  lemma MembershipReadLaterIsNew(w: World, steps: seq<Step>, j: nat, org: OrgId, u: UserId, v: VaultId, m: Moments,
                                 enabled: bool, x: nat)
    requires Inv(w) && Ordered(m, steps) && j < m.member
    requires StatementOf(At(w, steps, j), steps[j]) == Some(Remove(org, u)) && VaultIn(At(w, steps, j).db, v, org)
    requires Observe(w, steps, v, u, m, enabled).pc == Answered(Ok(x))
    ensures exists i | j < i < m.member :: Joins(At(w, steps, i), steps[i], org, u)
  {
    hide *;
    MomentsAreInTheRun(m, steps);
    AfterRemoval(w, steps, j, org, u, v);
    AnswerNeeds(w, steps, v, u, m, enabled, x);
    SameOrganization(w, steps, v, m.vault, j);
    JoinsBetween(w, steps, j + 1, m.member, org, u);
  }

  /** A check that answers and reads the grant after a removal: the user completed a request whose
      access version was read after the removal. */
  lemma GrantReadLaterIsNew(w: World, steps: seq<Step>, j: nat, org: OrgId, u: UserId, v: VaultId, m: Moments,
                            enabled: bool, x: nat)
    requires Inv(w) && Ordered(m, steps) && j < m.grant
    requires StatementOf(At(w, steps, j), steps[j]) == Some(Remove(org, u)) && VaultIn(At(w, steps, j).db, v, org)
    requires Observe(w, steps, v, u, m, enabled).pc == Answered(Ok(x))
    ensures exists i | j < i < m.grant ::
              CompletesFreshRequest(At(w, steps, i), steps[i], v, u, Removals(At(w, steps, j), v, u) + 1)
  {
    hide *;
    MomentsAreInTheRun(m, steps);
    AfterRemoval(w, steps, j, org, u, v);
    AnswerNeeds(w, steps, v, u, m, enabled, x);
    CompletesBetween(w, steps, j + 1, m.grant, v, u, Removals(At(w, steps, j), v, u) + 1);
  }

  /** A check that read the grant before a removal answers with a version that is dead. */
  lemma GrantReadEarlierIsDead(w: World, steps: seq<Step>, j: nat, org: OrgId, u: UserId, v: VaultId, m: Moments,
                               enabled: bool, x: nat)
    requires Inv(w) && Ordered(m, steps) && m.grant <= j < |steps|
    requires StatementOf(At(w, steps, j), steps[j]) == Some(Remove(org, u)) && VaultIn(At(w, steps, j).db, v, org)
    requires Observe(w, steps, v, u, m, enabled).pc == Answered(Ok(x))
    ensures Dead(View(Run(w, steps), v, u), x)
  {
    hide *;
    AfterRemoval(w, steps, j, org, u, v);
    CheckedVersionIsCurrentOrDead(w, steps, v, u, m, enabled, x);
    RemovalsBetween(w, steps, m.grant, j, v, u);
    RemovalsBetween(w, steps, j + 1, |steps|, v, u);
    WholeRun(w, steps);
  }

  /** The step that removes a user shuts the user out of each of the organization's vaults. */
  lemma AfterRemoval(w: World, steps: seq<Step>, j: nat, org: OrgId, u: UserId, v: VaultId)
    requires Inv(w) && j < |steps|
    requires StatementOf(At(w, steps, j), steps[j]) == Some(Remove(org, u)) && VaultIn(At(w, steps, j).db, v, org)
    ensures v in At(w, steps, j).db.vaults && At(w, steps, j).db.vaults[v].org == org
    ensures var removed := At(w, steps, j + 1);
            && Inv(removed) && !ActiveGrant(removed, v, u) && (org, u) !in removed.db.members && v in removed.db.vaults
            && Removals(removed, v, u) == Removals(At(w, steps, j), v, u) + 1
  {
    hide Inv, Run, At, Apply, StatementOf, Removals, ActiveGrant;
    InvAt(w, steps, j);
    InvAt(w, steps, j + 1);
    OneStep(w, steps, j);
    RemovalStep(At(w, steps, j), steps[j], org, u, v);
  }

  /** A check of a vault of an organization the user was removed from, however its reads fall around
      the removal and whatever else runs. If it still reads a membership after the removal, the user
      has joined again by then. If it reads the grant after the removal, the user has by then completed
      a request whose access version was read after the removal. If it read the grant before, the
      version it answers with is dead. */
  lemma AccessAfterRemovalIsNew(w: World, steps: seq<Step>, j: nat, org: OrgId, u: UserId, v: VaultId, m: Moments, enabled: bool,
                                x: nat)
    requires Inv(w) && Ordered(m, steps) && j < |steps|
    requires StatementOf(At(w, steps, j), steps[j]) == Some(Remove(org, u)) && VaultIn(At(w, steps, j).db, v, org)
    requires Observe(w, steps, v, u, m, enabled).pc == Answered(Ok(x))
    ensures j < m.member ==> exists i | j < i < m.member :: Joins(At(w, steps, i), steps[i], org, u)
    ensures j < m.grant ==>
              exists i | j < i < m.grant ::
                CompletesFreshRequest(At(w, steps, i), steps[i], v, u, Removals(At(w, steps, j), v, u) + 1)
    ensures m.grant <= j ==> Dead(View(Run(w, steps), v, u), x)
  {
    hide *;
    if j < m.member {
      MembershipReadLaterIsNew(w, steps, j, org, u, v, m, enabled, x);
    }
    if j < m.grant {
      GrantReadLaterIsNew(w, steps, j, org, u, v, m, enabled, x);
    } else {
      GrantReadEarlierIsDead(w, steps, j, org, u, v, m, enabled, x);
    }
  }

  lemma RemovalStep(w: World, step: Step, org: OrgId, u: UserId, v: VaultId)
    requires Inv(w) && StatementOf(w, step) == Some(Remove(org, u)) && VaultIn(w.db, v, org)
    ensures var removed := Apply(w, step);
            && !ActiveGrant(removed, v, u) && (org, u) !in removed.db.members && v in removed.db.vaults
            && Removals(removed, v, u) == Removals(w, v, u) + 1
  {
    StepIsItsStatement(w, step);
    StepKeepsVault(w, step, v);
    RemovalLocksOut(w, org, u, v);
    hide Apply, Exec, StatementOf, Inv, Justified;
  }

  lemma SameOrganization(w: World, steps: seq<Step>, v: VaultId, i: nat, j: nat)
    requires Inv(w) && i <= |steps| && j <= |steps|
    requires v in At(w, steps, i).db.vaults && v in At(w, steps, j).db.vaults
    ensures At(w, steps, i).db.vaults[v].org == At(w, steps, j).db.vaults[v].org
  {
    var first, last := if i <= j then i else j, if i <= j then j else i;
    InvAt(w, steps, first);
    Between(w, steps, first, last);
    hide Inv, Run, At;
    VaultStaysInRun(At(w, steps, first), steps[first..last], v);
  }

  lemma RemovalsBetween(w: World, steps: seq<Step>, i: nat, j: nat, v: VaultId, u: UserId)
    requires Inv(w) && i <= j <= |steps|
    ensures Removals(At(w, steps, i), v, u) <= Removals(At(w, steps, j), v, u)
  {
    InvAt(w, steps, i);
    Between(w, steps, i, j);
    hide Inv, Run, At, Dead;
    EpochsOnlyAdvance(At(w, steps, i), steps[i..j], v, u);
  }

  lemma JoinsBetween(w: World, steps: seq<Step>, i: nat, j: nat, org: OrgId, u: UserId)
    requires i <= j <= |steps|
    requires (org, u) !in At(w, steps, i).db.members && (org, u) in At(w, steps, j).db.members
    ensures exists k | i <= k < j :: Joins(At(w, steps, k), steps[k], org, u)
  {
    hide Run, At, Joins;
    Between(w, steps, i, j);
    JoiningIsOnTheWay(At(w, steps, i), steps[i..j], org, u);
    var k :| 0 <= k < |steps[i..j]| && Joins(Run(At(w, steps, i), steps[i..j][..k]), steps[i..j][k], org, u);
    Inside(w, steps, i, j, k);
  }

  lemma CompletesBetween(w: World, steps: seq<Step>, i: nat, j: nat, v: VaultId, u: UserId, n: nat)
    requires i <= j <= |steps| && Inv(At(w, steps, i)) && v in At(w, steps, i).db.vaults
    requires !ActiveGrant(At(w, steps, i), v, u) && ActiveGrant(At(w, steps, j), v, u)
    requires n <= Removals(At(w, steps, i), v, u)
    ensures exists k | i <= k < j :: CompletesFreshRequest(At(w, steps, k), steps[k], v, u, n)
  {
    hide Inv, Run, At, CompletesFreshRequest, Removals, ActiveGrant;
    Between(w, steps, i, j);
    ActivationIsOnTheWay(At(w, steps, i), steps[i..j], v, u, n);
    var k :| 0 <= k < |steps[i..j]|
             && CompletesFreshRequest(Run(At(w, steps, i), steps[i..j][..k]), steps[i..j][k], v, u, n);
    Inside(w, steps, i, j, k);
  }

  lemma Inside(w: World, steps: seq<Step>, i: nat, j: nat, k: nat)
    requires i <= j <= |steps| && k < j - i
    ensures Run(At(w, steps, i), steps[i..j][..k]) == At(w, steps, i + k) && steps[i..j][k] == steps[i + k]
  {
    assert steps[i..j][..k] == steps[i..i + k];
    Between(w, steps, i, i + k);
  }

  lemma RemovalLocksOut(w: World, org: OrgId, u: UserId, v: VaultId)
    requires VaultIn(w.db, v, org)
    ensures var removed := Exec(w, Remove(org, u)).0;
            && !ActiveGrant(removed, v, u) && (org, u) !in removed.db.members
            && Removals(removed, v, u) == Removals(w, v, u) + 1
  {
    hide Queued, RevokeWrappers, CancelRequests;
    assert v in VaultIdsOf(w.db.vaults, org);
  }

  lemma {:induction false} VaultStaysInRun(w: World, steps: seq<Step>, v: VaultId)
    requires Inv(w) && v in w.db.vaults
    ensures v in Run(w, steps).db.vaults && Run(w, steps).db.vaults[v].org == w.db.vaults[v].org
    decreases |steps|
  {
    hide Inv, Apply;
    if steps != [] {
      StepKeepsInv(w, steps[0]);
      StepKeepsVault(w, steps[0], v);
      VaultStaysInRun(Apply(w, steps[0]), steps[1..], v);
    }
  }

  /** Whatever members and administrators do, an organization's owner stays its owner and nobody
      else becomes one. */
  lemma {:induction false} OwnersStay(w: World, steps: seq<Step>, k: (OrgId, UserId))
    requires Inv(w)
    ensures var later := Run(w, steps);
            (k in w.db.members && w.db.members[k].Owner?) <==> (k in later.db.members && later.db.members[k].Owner?)
    decreases |steps|
  {
    hide Exec, Apply, StatementOf, EpochRules, InvitationRules, KeyRequestRules, ThreadRules;
    if steps != [] {
      StepIsItsStatement(w, steps[0]);
      if StatementOf(w, steps[0]).Some? {
        OwnersKept(w, StatementOf(w, steps[0]).value, k);
      }
      StepKeepsInv(w, steps[0]);
      OwnersStay(Apply(w, steps[0]), steps[1..], k);
    }
  }

  lemma AnsweredStays(w: World, s: Statement, i: InvitationId)
    requires i in w.db.invitations && !w.db.invitations[i].status.Invited?
    ensures i in Exec(w, s).0.db.invitations && Exec(w, s).0.db.invitations[i] == w.db.invitations[i]
  {
    hide Exec, Execute, MayInvite;
    if WritesInvitations(s) {
      InvitationsAfter(w, s);
    } else {
      Untouched(w, s);
    }
  }

  /** An invitation that was accepted, rejected or canceled never changes again. */
  lemma {:induction false} AnswersAreFinal(w: World, steps: seq<Step>, i: InvitationId)
    requires Inv(w) && i in w.db.invitations && !w.db.invitations[i].status.Invited?
    ensures i in Run(w, steps).db.invitations && Run(w, steps).db.invitations[i] == w.db.invitations[i]
    decreases |steps|
  {
    hide Inv, Apply, Exec, StatementOf;
    if steps != [] {
      StepIsItsStatement(w, steps[0]);
      if StatementOf(w, steps[0]).Some? {
        AnsweredStays(w, StatementOf(w, steps[0]).value, i);
      }
      StepKeepsInv(w, steps[0]);
      AnswersAreFinal(Apply(w, steps[0]), steps[1..], i);
    }
  }
}
