/** The durable refresh outbox: any number of flushers, failing at any point, race with membership
    changes and with access checks, and still no vault leaves the outbox before its coordinator knows
    every removal. */
module SharingRefresh {
  import opened Wrappers
  import opened Numbers
  import opened VaultCrypto
  import opened SharingTables
  import opened SharingStore
  import opened SharingService
  import opened SharingSafety
  import opened SharingEpochs

  type FlusherId = nat
  type CheckId = nat
  type Task = (VaultId, Revision)

  const DEFAULT_SYNC_TOKEN_TTL_MS: int := 120 * 1000

  datatype Phase = Idle | Located | Snapshotted(versions: map<UserId, nat>) | Recorded

  /** A flush under way: the tasks it listed and has not finished, and how far the first one is. */
  datatype Flusher = Flusher(tasks: seq<Task>, phase: Phase)

  /** What a coordinator holds against a user's tokens: those below the minimum, until the block expires.
      An expired block is kept without effect; the next one recorded is never below it, since a
      coordinator serves its refreshes one after the other. */
  datatype Block = Block(minimum: nat, expiresAt: int)

  /** A sync token; `stamp` is history: the removals of its user when its version was read. */
  datatype Token = Token(vault: VaultId, user: UserId, accessVersion: nat, expiresAt: int, stamp: nat)

  /** The version a user's grant had after the user's last removal, and when that was. */
  datatype Mark = Mark(version: nat, at: int)

  /** The service with its coordinators, the access checks under way and the sync tokens issued so
      far. `due` is history. */
  datatype Outbox = Outbox(world: World, ttl: nat, blocks: map<(VaultId, UserId), Block>, flushers: map<FlusherId, Flusher>,
                           due: map<(VaultId, UserId), Mark>, checks: map<CheckId, Check>, tokens: set<Token>)

  datatype OutboxStep =
    | Serve(step: Step)
    | List(flusher: FlusherId, tasks: seq<Task>)
    | LocateVault(flusher: FlusherId)
    | ReadVersions(flusher: FlusherId)
    | RecordVersions(flusher: FlusherId)
    | FinishTask(flusher: FlusherId)
    | SkipTask(flusher: FlusherId)
    | BeginCheck(check: CheckId, vault: VaultId, user: UserId)
    | ReadForCheck(check: CheckId, sharingEnabled: bool)
    | Mint(check: CheckId)

  function BlockOf(o: Outbox, v: VaultId, u: UserId): Block {
    if (v, u) in o.blocks then o.blocks[(v, u)] else Block(0, o.world.now)
  }

  function Minimum(o: Outbox, v: VaultId, u: UserId): nat {
    if (v, u) in o.blocks then o.blocks[(v, u)].minimum else 0
  }

  predicate BlocksUntil(o: Outbox, v: VaultId, u: UserId, time: int) {
    (v, u) in o.blocks && time <= o.blocks[(v, u)].expiresAt
  }

  predicate BlockInForce(o: Outbox, v: VaultId, u: UserId) {
    (v, u) in o.blocks && o.world.now < o.blocks[(v, u)].expiresAt
  }

  function Due(o: Outbox, v: VaultId, u: UserId): nat {
    if (v, u) in o.due then o.due[(v, u)].version else 0
  }

  function DueAt(o: Outbox, v: VaultId, u: UserId): int {
    if (v, u) in o.due then o.due[(v, u)].at else 0
  }

  function BlockTtl(o: Outbox): int {
    Max(DEFAULT_SYNC_TOKEN_TTL_MS, o.ttl)
  }

  /** The coordinator refuses a token below the minimum it holds against the user. */
  predicate Refused(o: Outbox, t: Token) {
    BlockInForce(o, t.vault, t.user) && t.accessVersion < Minimum(o, t.vault, t.user)
  }

  predicate Expired(o: Outbox, t: Token) {
    t.expiresAt <= o.world.now
  }

  predicate Removed(before: World, after: World, v: VaultId, u: UserId) {
    Removals(before, v, u) < Removals(after, v, u)
  }

  function DueAfter(o: Outbox, after: World): map<(VaultId, UserId), Mark> {
    map k | k in after.db.grants ::
      if Removed(o.world, after, k.0, k.1) then Mark(after.db.grants[k].accessVersion, after.now)
      else Mark(Due(o, k.0, k.1), DueAt(o, k.0, k.1))
  }

  function Versions(db: Db, v: VaultId): map<UserId, nat> {
    map k | k in db.grants && k.0 == v :: k.1 := db.grants[k].accessVersion
  }

  /** Blocks recorded only grow and last longer; first versions are not recorded. */
  function Recording(o: Outbox, v: VaultId, versions: map<UserId, nat>): map<(VaultId, UserId), Block> {
    map k | k in o.blocks.Keys + (set u | u in versions && versions[u] > 1 :: (v, u)) ::
      if k.0 == v && k.1 in versions && versions[k.1] > 1
      then Block(Max(versions[k.1], Minimum(o, k.0, k.1)), Max(o.world.now + BlockTtl(o), BlockOf(o, k.0, k.1).expiresAt))
      else BlockOf(o, k.0, k.1)
  }

  /** Tokens are dated in whole seconds. */
  function NewToken(o: Outbox, c: Check): Token {
    Token(c.vault, c.user, CheckedVersion(c), o.world.now / 1000 * 1000 + o.ttl, c.stamp)
  }

  function Apply(o: Outbox, step: OutboxStep): Outbox {
    match step
    case Serve(s) =>
      if s.Administer? && s.statement.Finish? then o
      else
        var next := SharingService.Apply(o.world, s);
        o.(world := next, due := DueAfter(o, next))
    case List(f, tasks) =>
      if f in o.flushers || !forall task | task in tasks :: task.0 in o.world.db.refreshes && o.world.db.refreshes[task.0] == task.1
      then o else o.(flushers := o.flushers[f := Flusher(tasks, Idle)])
    case LocateVault(f) =>
      if || f !in o.flushers || o.flushers[f].tasks == [] || !o.flushers[f].phase.Idle?
         || !LiveVault(o.world.db, o.flushers[f].tasks[0].0) then o
      else o.(flushers := o.flushers[f := o.flushers[f].(phase := Located)])
    case ReadVersions(f) =>
      if f !in o.flushers || o.flushers[f].tasks == [] || !o.flushers[f].phase.Located? then o
      else o.(flushers := o.flushers[f := o.flushers[f].(phase := Snapshotted(Versions(o.world.db, o.flushers[f].tasks[0].0)))])
    case RecordVersions(f) =>
      if f !in o.flushers || o.flushers[f].tasks == [] || !o.flushers[f].phase.Snapshotted? then o
      else o.(blocks := Recording(o, o.flushers[f].tasks[0].0, o.flushers[f].phase.versions),
              flushers := o.flushers[f := o.flushers[f].(phase := Recorded)])
    case FinishTask(f) =>
      if f !in o.flushers || o.flushers[f].tasks == [] || !o.flushers[f].phase.Recorded? then o
      else
        var task := o.flushers[f].tasks[0];
        o.(world := Exec(o.world, Finish(task.0, task.1)).0,
           flushers := o.flushers[f := Flusher(o.flushers[f].tasks[1..], Idle)])
    case SkipTask(f) =>
      if f !in o.flushers || o.flushers[f].tasks == [] then o
      else o.(flushers := o.flushers[f := Flusher(o.flushers[f].tasks[1..], Idle)])
    case BeginCheck(c, v, u) => if c in o.checks then o else o.(checks := o.checks[c := NewCheck(v, u)])
    case ReadForCheck(c, enabled) =>
      if c !in o.checks then o else o.(checks := o.checks[c := AdvanceCheck(o.world, o.checks[c], enabled)])
    case Mint(c) =>
      if c !in o.checks || !o.checks[c].pc.Answered? || o.checks[c].pc.result.Err? then o
      else o.(tokens := o.tokens + {NewToken(o, o.checks[c])}, checks := o.checks - {c})
  }

  function Run(o: Outbox, steps: seq<OutboxStep>): Outbox
    decreases |steps|
  {
    if steps == [] then o else Run(Apply(o, steps[0]), steps[1..])
  }

  function Initial(members: map<(OrgId, UserId), Role>, emails: map<UserId, Email>, now: int, ttl: nat): Outbox {
    Outbox(SharingService.Initial(members, emails, now), ttl, map[], map[], map[], map[], {})
  }

  // --------------------------------------------------------------- invariant

  /** The coordinator has recorded the versions of all removals, each after it happened. */
  ghost predicate Known(o: Outbox, v: VaultId) {
    forall u ::
      && Due(o, v, u) <= Minimum(o, v, u)
      && (Due(o, v, u) > 0 ==> BlocksUntil(o, v, u, DueAt(o, v, u) + BlockTtl(o)))
  }

  /** A flusher whose task is still the outbox row has read, or recorded, every due version. */
  ghost predicate FlusherRules(o: Outbox, f: Flusher) {
    && (forall task | task in f.tasks :: task.1 < o.world.nextRevision)
    && (f.tasks != [] && f.phase.Snapshotted? ==>
          forall u | u in f.phase.versions :: AtMostCurrent(o, f.tasks[0].0, u, f.phase.versions[u]))
    && (f.tasks != [] && f.tasks[0].0 in o.world.db.refreshes && o.world.db.refreshes[f.tasks[0].0] == f.tasks[0].1 ==>
          match f.phase
          case Idle => true
          case Located => true
          case Snapshotted(versions) =>
            forall u :: Due(o, f.tasks[0].0, u) > 0 ==> u in versions && Due(o, f.tasks[0].0, u) <= versions[u]
          case Recorded => Known(o, f.tasks[0].0))
  }

  predicate AtMostCurrent(o: Outbox, v: VaultId, u: UserId, x: nat) {
    (v, u) in o.world.db.grants && x <= o.world.db.grants[(v, u)].accessVersion
  }

  predicate GrantDue(o: Outbox, k: (VaultId, UserId)) {
    && (Due(o, k.0, k.1) > 0 ==> DueAt(o, k.0, k.1) <= o.world.now)
    && if k !in o.world.db.grants then Due(o, k.0, k.1) == 0
       else
         && Due(o, k.0, k.1) <= o.world.db.grants[k].accessVersion
         && Due(o, k.0, k.1) != 1
         && (o.world.db.grants[k].status.Revoked? ==> Due(o, k.0, k.1) == o.world.db.grants[k].accessVersion)
  }

  /** No block reaches above the user's present version. */
  predicate BlockRules(o: Outbox, v: VaultId, u: UserId) {
    Minimum(o, v, u) > 0 ==> AtMostCurrent(o, v, u, Minimum(o, v, u))
  }

  /** A version read from an active grant is still the grant's, or was overtaken by a removal. */
  predicate VersionRules(o: Outbox, v: VaultId, u: UserId, x: nat, stamp: nat) {
    Tracks(View(o.world, v, u), x, stamp) && (stamp < Removals(o.world, v, u) ==> x < Due(o, v, u))
  }

  predicate GrantWasRead(c: Check) {
    c.pc.AtMember? || c.pc.AtSuspension? || (c.pc.Answered? && c.pc.result.Ok?)
  }

  predicate CheckRules(o: Outbox, c: Check) {
    GrantWasRead(c) ==> VersionRules(o, c.vault, c.user, CheckedVersion(c), c.stamp)
  }

  predicate TokenRules(o: Outbox, t: Token) {
    VersionRules(o, t.vault, t.user, t.accessVersion, t.stamp) && t.expiresAt <= o.world.now + o.ttl
  }

  ghost predicate OutboxInv(o: Outbox) {
    && Inv(o.world)
    && (forall v | v in o.world.db.refreshes :: o.world.db.refreshes[v] < o.world.nextRevision)
    && (forall v :: v !in o.world.db.refreshes ==> Known(o, v))
    && (forall f | f in o.flushers :: FlusherRules(o, o.flushers[f]))
    && (forall v: VaultId, u: UserId :: GrantDue(o, (v, u)))
    && (forall v, u :: BlockRules(o, v, u))
    && (forall c | c in o.checks :: CheckRules(o, o.checks[c]))
    && (forall t | t in o.tokens :: TokenRules(o, t))
  }

  // --------------------------------------------------------- service steps

  /** How one statement other than a completion moves the outbox. */
  predicate Requeues(before: World, after: World, v: VaultId) {
    if v in after.db.refreshes then
      || (v in before.db.refreshes && after.db.refreshes[v] == before.db.refreshes[v])
      || before.nextRevision <= after.db.refreshes[v] < after.nextRevision
    else v !in before.db.refreshes
  }

  lemma StatementRequeues(w: World, s: Statement, v: VaultId)
    requires !s.Finish?
    ensures Requeues(w, Exec(w, s).0, v)
  {
    hide Shared, RevokeGrants, RevokeWrappers, CancelRequests, CountRemoval, LiveVaultIdsOf, VaultIdsOf, LiveInvitation;
    Untouched(w, s);
  }

  /** A removal requeues the vault under a fresh revision. */
  lemma RemovalRequeues(w: World, s: Statement, v: VaultId, u: UserId)
    requires Removed(w, Exec(w, s).0, v, u)
    ensures var next := Exec(w, s).0;
            v in next.db.refreshes && w.nextRevision <= next.db.refreshes[v] < next.nextRevision
  {
    Untouched(w, s);
    if s.Remove? {
      hide RevokeWrappers, CancelRequests, RevokeGrants;
    } else {
      hide Exec, Execute;
    }
  }

  /** What one service step does to the outbox: rows stay or are requeued afresh, a removal always
      requeues, and everything else about a grant moves by a Transition. */
  ghost predicate ServedBy(before: World, after: World) {
    && before.nextRevision <= after.nextRevision && before.now <= after.now
    && (forall v :: Requeues(before, after, v))
    && (forall v, u | Removed(before, after, v, u) ::
          v in after.db.refreshes && before.nextRevision <= after.db.refreshes[v])
    && (forall v, u :: Transition(View(before, v, u), View(after, v, u)))
  }

  lemma StepServes(w: World, step: Step)
    requires Inv(w) && !(step.Administer? && step.statement.Finish?)
    ensures ServedBy(w, SharingService.Apply(w, step))
  {
    hide SharingService.Apply, Exec, StatementOf, Transition, Justified, Requeues, Removed, View;
    StepIsItsStatement(w, step);
    TimeAdvances(w, step);
    var s := StatementOf(w, step);
    var next := SharingService.Apply(w, step);
    forall v, u
      ensures Transition(View(w, v, u), View(next, v, u))
    {
      StepChangesView(w, step, v, u);
    }
    if s.Some? {
      NeverFinishes(w, step);
      var executed := Exec(w, s.value).0;
      Untouched(w, s.value);
      forall v
        ensures Requeues(w, next, v)
      {
        StatementRequeues(w, s.value, v);
        SameRequeues(w, executed, next, v);
      }
      forall v, u | Removed(w, next, v, u)
        ensures v in next.db.refreshes && w.nextRevision <= next.db.refreshes[v]
      {
        SameRemovals(w, executed, next, v, u);
        RemovalRequeues(w, s.value, v, u);
      }
    } else {
      forall v
        ensures Requeues(w, next, v)
      {
        SameRequeues(w, w, next, v);
      }
      forall v, u
        ensures !Removed(w, next, v, u)
      {
        SameRemovals(w, w, next, v, u);
      }
    }
  }

  lemma SameRemovals(w: World, executed: World, next: World, v: VaultId, u: UserId)
    requires next.removals == executed.removals
    ensures Removed(w, next, v, u) <==> Removed(w, executed, v, u)
    ensures !Removed(w, w, v, u)
  {
  }

  lemma TimeAdvances(w: World, step: Step)
    ensures w.now <= SharingService.Apply(w, step).now
  {
    hide Exec, Next;
    match step
    case Advance(t, enabled, freshId) =>
      if t in w.threads && Next(w, w.threads[t], enabled, freshId).statement.Some? {
        Untouched(w, Next(w, w.threads[t], enabled, freshId).statement.value);
      }
    case Administer(s) => Untouched(w, s);
    case _ =>
  }

  lemma SameRequeues(w: World, executed: World, next: World, v: VaultId)
    requires executed == w || Requeues(w, executed, v)
    requires next.db == executed.db && next.nextRevision == executed.nextRevision
    ensures Requeues(w, next, v)
  {
  }

  lemma NeverFinishes(w: World, step: Step)
    requires !(step.Administer? && step.statement.Finish?)
    ensures StatementOf(w, step).Some? ==> !StatementOf(w, step).value.Finish?
  {
    hide LiveVault, IsMember, LiveInvitation, Lower, Trim, ReadVault, ReadMember, AcceptableEnvelope, NewRequest;
  }

  /** The outbox with the service moved on. */
  function Served(o: Outbox, after: World): Outbox {
    o.(world := after, due := DueAfter(o, after))
  }

  lemma DueKept(o: Outbox, after: World, v: VaultId, u: UserId)
    requires OutboxInv(o) && ServedBy(o.world, after)
    ensures var next := Served(o, after);
            && (if Removed(o.world, after, v, u) && (v, u) in after.db.grants then
                  Due(next, v, u) == after.db.grants[(v, u)].accessVersion && DueAt(next, v, u) == after.now
                else Due(next, v, u) == Due(o, v, u) && (Due(o, v, u) > 0 ==> DueAt(next, v, u) == DueAt(o, v, u)))
            && GrantDue(next, (v, u))
  {
    hide Inv, FlusherRules, Known, Requeues, TokenRules, CheckRules, BlockRules;
    assert GrantDue(o, (v, u));
    assert Transition(View(o.world, v, u), View(after, v, u));
    PositiveVersions(o.world, v, u);
  }

  lemma PositiveVersions(w: World, v: VaultId, u: UserId)
    requires Inv(w)
    ensures (v, u) in w.db.grants ==> w.db.grants[(v, u)].accessVersion >= 1
  {
    assert GrantRules(View(w, v, u));
  }

  /** Versions of a grant only grow. */
  lemma CurrentKept(o: Outbox, after: World, v: VaultId, u: UserId, x: nat)
    requires ServedBy(o.world, after) && AtMostCurrent(o, v, u, x)
    ensures AtMostCurrent(Served(o, after), v, u, x)
  {
    hide Requeues, Removed, DueAfter;
    assert Transition(View(o.world, v, u), View(after, v, u));
  }

  lemma VersionKept(o: Outbox, after: World, v: VaultId, u: UserId, x: nat, stamp: nat)
    requires OutboxInv(o) && ServedBy(o.world, after) && VersionRules(o, v, u, x, stamp)
    ensures VersionRules(Served(o, after), v, u, x, stamp)
  {
    DueKept(o, after, v, u);
    assert GrantDue(o, (v, u));
    assert Transition(View(o.world, v, u), View(after, v, u));
    hide Inv, FlusherRules, Known, Requeues, TokenRules, CheckRules, BlockRules, DueAfter, ServedBy;
    TransitionKeepsTrack(View(o.world, v, u), View(after, v, u), x, stamp);
  }

  lemma FlusherKept(o: Outbox, after: World, f: Flusher)
    requires OutboxInv(o) && ServedBy(o.world, after) && FlusherRules(o, f)
    ensures FlusherRules(Served(o, after), f)
  {
    hide Inv, Transition, DueAfter, Removed, TokenRules, GrantDue, CheckRules, BlockRules, AtMostCurrent;
    var next := Served(o, after);
    if f.tasks != [] {
      var v := f.tasks[0].0;
      assert f.tasks[0] in f.tasks;
      assert Requeues(o.world, after, v);
      if f.phase.Snapshotted? {
        forall u | u in f.phase.versions
          ensures AtMostCurrent(next, v, u, f.phase.versions[u])
        {
          CurrentKept(o, after, v, u, f.phase.versions[u]);
        }
      }
      if v in after.db.refreshes && after.db.refreshes[v] == f.tasks[0].1 {
        forall u
          ensures Due(next, v, u) == Due(o, v, u) && (Due(o, v, u) > 0 ==> DueAt(next, v, u) == DueAt(o, v, u))
        {
          DueKept(o, after, v, u);
        }
      }
    }
  }

  lemma KnownKept(o: Outbox, after: World, v: VaultId)
    requires OutboxInv(o) && ServedBy(o.world, after) && v !in after.db.refreshes
    ensures Known(Served(o, after), v)
  {
    hide Inv, Transition, DueAfter, Removed, TokenRules, GrantDue, CheckRules, BlockRules, FlusherRules;
    var next := Served(o, after);
    assert Requeues(o.world, after, v);
    RowsStayBelow(o.world, after, v);
    assert Known(o, v);
    forall u
      ensures Due(next, v, u) == Due(o, v, u) && (Due(o, v, u) > 0 ==> DueAt(next, v, u) == DueAt(o, v, u))
    {
      DueKept(o, after, v, u);
    }
  }

  lemma ServeKeepsInv(o: Outbox, step: Step)
    requires OutboxInv(o)
    ensures OutboxInv(Apply(o, Serve(step)))
  {
    hide SharingService.Apply, Inv, Requeues, Transition, DueAfter, Removed, VersionRules, GrantDue, FlusherRules;
    hide AtMostCurrent, Known;
    if !(step.Administer? && step.statement.Finish?) {
      var after := SharingService.Apply(o.world, step);
      var next := Apply(o, Serve(step));
      StepKeepsInv(o.world, step);
      StepServes(o.world, step);
      assert next == Served(o, after);
      forall v
        ensures v in after.db.refreshes ==> after.db.refreshes[v] < after.nextRevision
        ensures v !in after.db.refreshes ==> Known(next, v)
      {
        assert Requeues(o.world, after, v);
        RowsStayBelow(o.world, after, v);
        if v !in after.db.refreshes {
          KnownKept(o, after, v);
        }
      }
      forall f | f in next.flushers
        ensures FlusherRules(next, next.flushers[f])
      {
        FlusherKept(o, after, o.flushers[f]);
      }
      GrantsServed(o, after);
      VersionsServed(o, after);
    }
  }

  lemma GrantsServed(o: Outbox, after: World)
    requires OutboxInv(o) && ServedBy(o.world, after)
    ensures forall v, u :: GrantDue(Served(o, after), (v, u)) && BlockRules(Served(o, after), v, u)
  {
    hide Inv, Requeues, Transition, DueAfter, Removed, VersionRules, GrantDue, FlusherRules, AtMostCurrent, Known;
    var next := Served(o, after);
    forall v, u
      ensures GrantDue(next, (v, u)) && BlockRules(next, v, u)
    {
      DueKept(o, after, v, u);
      assert BlockRules(o, v, u);
      if Minimum(o, v, u) > 0 {
        CurrentKept(o, after, v, u, Minimum(o, v, u));
      }
    }
  }

  lemma VersionsServed(o: Outbox, after: World)
    requires OutboxInv(o) && ServedBy(o.world, after)
    ensures forall c | c in o.checks :: CheckRules(Served(o, after), o.checks[c])
    ensures forall t | t in o.tokens :: TokenRules(Served(o, after), t)
  {
    hide Inv, Requeues, Transition, DueAfter, Removed, VersionRules, GrantDue, FlusherRules, BlockRules, Known;
    forall c | c in o.checks
      ensures CheckRules(Served(o, after), o.checks[c])
    {
      if GrantWasRead(o.checks[c]) {
        VersionKept(o, after, o.checks[c].vault, o.checks[c].user, CheckedVersion(o.checks[c]), o.checks[c].stamp);
      }
    }
    forall t | t in o.tokens
      ensures TokenRules(Served(o, after), t)
    {
      VersionKept(o, after, t.vault, t.user, t.accessVersion, t.stamp);
    }
  }

  lemma RowsStayBelow(w: World, after: World, v: VaultId)
    requires Requeues(w, after, v) && w.nextRevision <= after.nextRevision
    requires v in w.db.refreshes ==> w.db.refreshes[v] < w.nextRevision
    ensures v in after.db.refreshes ==> after.db.refreshes[v] < after.nextRevision
    ensures v !in after.db.refreshes ==> v !in w.db.refreshes
  {
  }

  // --------------------------------------------------------- flusher steps

  /** A block only grows and lasts longer. */
  predicate RaisedAt(o: Outbox, next: Outbox, v: VaultId, u: UserId) {
    (v, u) in o.blocks ==>
      && (v, u) in next.blocks && o.blocks[(v, u)].minimum <= next.blocks[(v, u)].minimum
      && o.blocks[(v, u)].expiresAt <= next.blocks[(v, u)].expiresAt
  }

  /** A step that leaves the tables alone: blocks are raised at most to the present versions. */
  ghost predicate Raises(o: Outbox, next: Outbox) {
    && next.world == o.world && next.due == o.due && next.ttl == o.ttl
    && forall v, u :: RaisedAt(o, next, v, u) && BlockRules(next, v, u)
  }

  lemma RaisingKeepsKnown(o: Outbox, next: Outbox, v: VaultId)
    requires Known(o, v) && Raises(o, next)
    ensures Known(next, v)
  {
    forall u
      ensures Due(next, v, u) == Due(o, v, u) && DueAt(next, v, u) == DueAt(o, v, u) && RaisedAt(o, next, v, u)
    {
    }
  }

  lemma RaisingKeepsFlusher(o: Outbox, next: Outbox, f: Flusher)
    requires FlusherRules(o, f) && Raises(o, next)
    ensures FlusherRules(next, f)
  {
    assert forall v, u :: Due(next, v, u) == Due(o, v, u);
    assert forall v, u, x :: AtMostCurrent(o, v, u, x) ==> AtMostCurrent(next, v, u, x);
    if f.tasks != [] && f.phase.Recorded? && Known(o, f.tasks[0].0) {
      RaisingKeepsKnown(o, next, f.tasks[0].0);
    }
    hide Known, Raises, AtMostCurrent;
  }

  lemma SameVersions(o: Outbox, next: Outbox)
    requires next.world == o.world && next.due == o.due && next.ttl == o.ttl
    ensures forall k :: GrantDue(o, k) ==> GrantDue(next, k)
    ensures forall c :: CheckRules(o, c) ==> CheckRules(next, c)
    ensures forall t :: TokenRules(o, t) ==> TokenRules(next, t)
  {
    hide Tracks, View;
    assert forall v, u, x, stamp :: VersionRules(o, v, u, x, stamp) ==> VersionRules(next, v, u, x, stamp);
    hide VersionRules;
  }

  /** New flushers, checks and tokens obey the rules. */
  lemma SideStepKeepsInv(o: Outbox, next: Outbox)
    requires OutboxInv(o) && Raises(o, next)
    requires forall g | g in next.flushers ::
               (g in o.flushers && next.flushers[g] == o.flushers[g]) || FlusherRules(next, next.flushers[g])
    requires forall c | c in next.checks :: (c in o.checks && next.checks[c] == o.checks[c]) || CheckRules(next, next.checks[c])
    requires forall t | t in next.tokens :: t in o.tokens || TokenRules(next, t)
    ensures OutboxInv(next)
  {
    hide Inv, TokenRules, CheckRules, GrantDue, Known, FlusherRules, RaisedAt, BlockRules;
    SameVersions(o, next);
    forall v | v !in next.world.db.refreshes
      ensures Known(next, v)
    {
      RaisingKeepsKnown(o, next, v);
    }
    forall g | g in next.flushers
      ensures FlusherRules(next, next.flushers[g])
    {
      if g in o.flushers && next.flushers[g] == o.flushers[g] {
        RaisingKeepsFlusher(o, next, next.flushers[g]);
      }
    }
  }

  lemma SameBlocks(o: Outbox, next: Outbox)
    requires OutboxInv(o) && next.blocks == o.blocks && next.world == o.world && next.due == o.due && next.ttl == o.ttl
    ensures Raises(o, next)
  {
    hide Inv, TokenRules, CheckRules, GrantDue, Known, FlusherRules;
    forall v, u
      ensures RaisedAt(o, next, v, u) && BlockRules(next, v, u)
    {
      assert BlockRules(o, v, u);
    }
  }

  lemma ListKeepsInv(o: Outbox, f: FlusherId, tasks: seq<Task>)
    requires OutboxInv(o)
    ensures OutboxInv(Apply(o, List(f, tasks)))
  {
    hide Inv, TokenRules, CheckRules, GrantDue, Known, BlockRules;
    var next := Apply(o, List(f, tasks));
    if next != o {
      assert FlusherRules(next, Flusher(tasks, Idle));
      hide FlusherRules;
      SameBlocks(o, next);
      SideStepKeepsInv(o, next);
    }
  }

  lemma LocateKeepsInv(o: Outbox, f: FlusherId)
    requires OutboxInv(o)
    ensures OutboxInv(Apply(o, LocateVault(f)))
  {
    hide Inv, TokenRules, CheckRules, GrantDue, Known, BlockRules, LiveVault;
    var next := Apply(o, LocateVault(f));
    if next != o {
      assert FlusherRules(o, o.flushers[f]);
      assert FlusherRules(next, next.flushers[f]);
      hide FlusherRules;
      SameBlocks(o, next);
      SideStepKeepsInv(o, next);
    }
  }

  lemma VersionsAre(db: Db, v: VaultId, u: UserId)
    ensures (v, u) in db.grants <==> u in Versions(db, v)
    ensures (v, u) in db.grants ==> Versions(db, v)[u] == db.grants[(v, u)].accessVersion
  {
    if (v, u) in db.grants {
      var k := (v, u);
      assert k in db.grants && k.0 == v;
      assert k.1 in Versions(db, v);
    }
  }

  /** The versions read are the present ones and cover every due one. */
  lemma VersionsCoverDue(o: Outbox, v: VaultId)
    requires OutboxInv(o)
    ensures forall u :: Due(o, v, u) > 0 ==> u in Versions(o.world.db, v) && Due(o, v, u) <= Versions(o.world.db, v)[u]
    ensures forall u | u in Versions(o.world.db, v) :: AtMostCurrent(o, v, u, Versions(o.world.db, v)[u])
  {
    hide Inv, Known, FlusherRules, TokenRules, CheckRules, BlockRules, Versions;
    forall u
      ensures Due(o, v, u) > 0 ==> u in Versions(o.world.db, v) && Due(o, v, u) <= Versions(o.world.db, v)[u]
      ensures u in Versions(o.world.db, v) ==> AtMostCurrent(o, v, u, Versions(o.world.db, v)[u])
    {
      assert GrantDue(o, (v, u));
      VersionsAre(o.world.db, v, u);
    }
  }

  lemma ReadKeepsInv(o: Outbox, f: FlusherId)
    requires OutboxInv(o)
    ensures OutboxInv(Apply(o, ReadVersions(f)))
  {
    hide Inv, TokenRules, CheckRules, GrantDue, Known, Versions, BlockRules;
    var next := Apply(o, ReadVersions(f));
    if next != o {
      var v := o.flushers[f].tasks[0].0;
      VersionsCoverDue(o, v);
      assert FlusherRules(o, o.flushers[f]);
      assert forall u :: Due(next, v, u) == Due(o, v, u);
      assert FlusherRules(next, next.flushers[f]);
      hide FlusherRules;
      SameBlocks(o, next);
      SideStepKeepsInv(o, next);
    }
  }

  lemma RecordingRaises(o: Outbox, v: VaultId, versions: map<UserId, nat>, a: VaultId, u: UserId)
    ensures var next := o.(blocks := Recording(o, v, versions));
            && RaisedAt(o, next, a, u)
            && (a == v && u in versions && versions[u] > 1 ==>
                  && (v, u) in next.blocks && versions[u] <= next.blocks[(v, u)].minimum
                  && o.world.now + BlockTtl(o) <= next.blocks[(v, u)].expiresAt)
            && (Minimum(next, a, u) == Minimum(o, a, u)
                || (a == v && u in versions && Minimum(next, a, u) == versions[u]))
  {
  }

  lemma RecordingIsARaise(o: Outbox, v: VaultId, versions: map<UserId, nat>)
    requires OutboxInv(o) && forall u | u in versions :: AtMostCurrent(o, v, u, versions[u])
    ensures Raises(o, o.(blocks := Recording(o, v, versions)))
  {
    hide Inv, TokenRules, CheckRules, GrantDue, Known, FlusherRules, Recording, RaisedAt, Minimum;
    var next := o.(blocks := Recording(o, v, versions));
    forall a, u
      ensures RaisedAt(o, next, a, u) && BlockRules(next, a, u)
    {
      RecordingRaises(o, v, versions, a, u);
      assert BlockRules(o, a, u);
    }
  }

  /** Recording versions that cover what is due makes the coordinator know it. */
  lemma RecordingMakesKnown(o: Outbox, v: VaultId, versions: map<UserId, nat>)
    requires OutboxInv(o)
    requires forall u :: Due(o, v, u) > 0 ==> u in versions && Due(o, v, u) <= versions[u]
    ensures Known(o.(blocks := Recording(o, v, versions)), v)
  {
    hide Inv, TokenRules, CheckRules, Known, FlusherRules, Recording, BlockRules, RaisedAt;
    var next := o.(blocks := Recording(o, v, versions));
    forall u
      ensures Due(next, v, u) <= Minimum(next, v, u)
      ensures Due(next, v, u) > 0 ==> BlocksUntil(next, v, u, DueAt(next, v, u) + BlockTtl(next))
    {
      assert GrantDue(o, (v, u));
      RecordingRaises(o, v, versions, v, u);
    }
    KnownIfAll(next, v);
  }

  lemma KnownIfAll(o: Outbox, v: VaultId)
    requires forall u :: Due(o, v, u) <= Minimum(o, v, u)
    requires forall u :: Due(o, v, u) > 0 ==> BlocksUntil(o, v, u, DueAt(o, v, u) + BlockTtl(o))
    ensures Known(o, v)
  {
  }

  lemma SameCoordinator(o: Outbox, next: Outbox, v: VaultId)
    requires next.due == o.due && next.blocks == o.blocks && next.ttl == o.ttl
    ensures Known(next, v) <==> Known(o, v)
  {
    assert forall u :: Due(next, v, u) == Due(o, v, u) && DueAt(next, v, u) == DueAt(o, v, u);
    assert forall u :: Minimum(next, v, u) == Minimum(o, v, u);
    assert forall u, time :: BlocksUntil(next, v, u, time) == BlocksUntil(o, v, u, time);
  }

  lemma RecordKeepsInv(o: Outbox, f: FlusherId)
    requires OutboxInv(o)
    ensures OutboxInv(Apply(o, RecordVersions(f)))
  {
    hide Inv, TokenRules, CheckRules, Recording, Known, GrantDue, BlockRules, AtMostCurrent, RaisedAt;
    var next := Apply(o, RecordVersions(f));
    if next != o {
      var v := o.flushers[f].tasks[0].0;
      var versions := o.flushers[f].phase.versions;
      var recorded := o.(blocks := Recording(o, v, versions));
      assert FlusherRules(o, o.flushers[f]);
      RecordingIsARaise(o, v, versions);
      if v in o.world.db.refreshes && o.world.db.refreshes[v] == o.flushers[f].tasks[0].1 {
        RecordingMakesKnown(o, v, versions);
        SameCoordinator(recorded, next, v);
      }
      assert FlusherRules(next, next.flushers[f]);
      RaisesToo(o, recorded, next);
      hide FlusherRules, Apply, Raises;
      SideStepKeepsInv(o, next);
    }
  }

  lemma RaisesToo(o: Outbox, recorded: Outbox, next: Outbox)
    requires Raises(o, recorded) && next == recorded.(flushers := next.flushers)
    ensures Raises(o, next)
  {
    forall v, u
      ensures RaisedAt(o, next, v, u) && BlockRules(next, v, u)
    {
      assert RaisedAt(o, recorded, v, u) && BlockRules(recorded, v, u);
    }
  }

  /** Dropping a row of a vault whose coordinator knows everything. */
  lemma DroppingKeepsInv(o: Outbox, v: VaultId, revision: Revision)
    requires OutboxInv(o)
    requires v in o.world.db.refreshes && o.world.db.refreshes[v] == revision ==> Known(o, v)
    ensures OutboxInv(o.(world := Exec(o.world, Finish(v, revision)).0))
  {
    var s := Finish(v, revision);
    var dropped := Exec(o.world, s).0;
    assert Inv(o.world) && Inv(dropped) by { ExecKeepsInv(o.world, s); }
    Untouched(o.world, s);
    FinishedTables(o.world, v, revision);
    hide Exec, Inv, FlusherRules, CheckRules, TokenRules, GrantDue, BlockRules, Known;
    FewerRowsKeepInv(o, o.(world := dropped));
  }

  lemma FewerRowsKeepInv(o: Outbox, next: Outbox)
    requires OutboxInv(o) && next == o.(world := next.world) && Inv(next.world)
    requires next.world.now == o.world.now && o.world.nextRevision <= next.world.nextRevision
    requires next.world.db.grants == o.world.db.grants && next.world.removals == o.world.removals
    requires next.world.activations == o.world.activations
    requires forall v | v in next.world.db.refreshes ::
               v in o.world.db.refreshes && next.world.db.refreshes[v] == o.world.db.refreshes[v]
    requires forall v | v !in next.world.db.refreshes :: Known(o, v)
    ensures OutboxInv(next)
  {
    hide Inv, CheckRules, TokenRules, GrantDue, Known, BlockRules, AtMostCurrent, Due, FlusherRules;
    SameGrants(o, next);
    forall f | f in o.flushers
      ensures FlusherRules(next, next.flushers[f])
    {
      FewerRowsKeepFlusher(o, next, o.flushers[f]);
    }
  }

  lemma FewerRowsKeepFlusher(o: Outbox, next: Outbox, f: Flusher)
    requires FlusherRules(o, f) && o.world.nextRevision <= next.world.nextRevision
    requires forall v | v in next.world.db.refreshes ::
               v in o.world.db.refreshes && next.world.db.refreshes[v] == o.world.db.refreshes[v]
    requires forall v, u :: Due(next, v, u) == Due(o, v, u)
    requires forall v :: Known(next, v) <==> Known(o, v)
    requires forall v, u, x :: AtMostCurrent(o, v, u, x) ==> AtMostCurrent(next, v, u, x)
    ensures FlusherRules(next, f)
  {
    hide Known, AtMostCurrent, Due;
  }

  lemma FinishKeepsInv(o: Outbox, f: FlusherId)
    requires OutboxInv(o)
    ensures OutboxInv(Apply(o, FinishTask(f)))
  {
    hide Inv, TokenRules, CheckRules, GrantDue, Known, Exec, BlockRules, AtMostCurrent;
    var next := Apply(o, FinishTask(f));
    if next != o {
      var task := o.flushers[f].tasks[0];
      assert FlusherRules(o, o.flushers[f]);
      DroppingKeepsInv(o, task.0, task.1);
      var dropped := o.(world := Exec(o.world, Finish(task.0, task.1)).0);
      assert FlusherRules(dropped, dropped.flushers[f]);
      assert FlusherRules(next, next.flushers[f]);
      hide FlusherRules;
      SameBlocks(dropped, next);
      SideStepKeepsInv(dropped, next);
    }
  }

  /** What is known of grants does not read the outbox rows. */
  lemma SameGrants(o: Outbox, next: Outbox)
    requires next == o.(world := next.world, flushers := next.flushers) && next.world.now == o.world.now
    requires next.world.db.grants == o.world.db.grants && next.world.removals == o.world.removals
    requires next.world.activations == o.world.activations
    ensures forall v, u :: Due(next, v, u) == Due(o, v, u)
    ensures forall v :: Known(next, v) <==> Known(o, v)
    ensures forall k :: GrantDue(o, k) ==> GrantDue(next, k)
    ensures forall v, u :: BlockRules(o, v, u) ==> BlockRules(next, v, u)
    ensures forall v, u, x :: AtMostCurrent(o, v, u, x) ==> AtMostCurrent(next, v, u, x)
    ensures forall c :: CheckRules(o, c) ==> CheckRules(next, c)
    ensures forall t :: TokenRules(o, t) ==> TokenRules(next, t)
  {
    forall v
      ensures Known(next, v) <==> Known(o, v)
    {
      SameCoordinator(o, next, v);
    }
    hide Known;
    assert forall v, u :: View(next.world, v, u) == View(o.world, v, u);
    hide Tracks, View;
    assert forall v, u, x, stamp :: VersionRules(o, v, u, x, stamp) ==> VersionRules(next, v, u, x, stamp);
    hide VersionRules;
  }

  lemma FinishedTables(w: World, v: VaultId, revision: Revision)
    ensures Exec(w, Finish(v, revision)).0.db == FinishRefresh(w.db, v, revision)
  {
  }

  lemma SkipKeepsInv(o: Outbox, f: FlusherId)
    requires OutboxInv(o)
    ensures OutboxInv(Apply(o, SkipTask(f)))
  {
    hide Inv, TokenRules, CheckRules, GrantDue, Known, BlockRules;
    var next := Apply(o, SkipTask(f));
    if next != o {
      assert FlusherRules(o, o.flushers[f]);
      assert FlusherRules(next, next.flushers[f]);
      hide FlusherRules;
      SameBlocks(o, next);
      SideStepKeepsInv(o, next);
    }
  }

  lemma AdvancedCheckObeys(o: Outbox, c: Check, enabled: bool)
    requires CheckRules(o, c)
    ensures CheckRules(o, AdvanceCheck(o.world, c, enabled))
  {
    hide IsSuspended, LiveVault, Due;
  }

  lemma CheckKeepsInv(o: Outbox, step: OutboxStep)
    requires OutboxInv(o) && (step.BeginCheck? || step.ReadForCheck?)
    ensures OutboxInv(Apply(o, step))
  {
    hide Inv, TokenRules, VersionRules, GrantDue, Known, BlockRules, FlusherRules, AdvanceCheck;
    var next := Apply(o, step);
    if next != o {
      if step.ReadForCheck? {
        AdvancedCheckObeys(o, o.checks[step.check], step.sharingEnabled);
      }
      SameBlocks(o, next);
      SameVersions(o, next);
      SideStepKeepsInv(o, next);
    }
  }

  lemma MintKeepsInv(o: Outbox, c: CheckId)
    requires OutboxInv(o)
    ensures OutboxInv(Apply(o, Mint(c)))
  {
    hide Inv, VersionRules, GrantDue, Known, BlockRules, FlusherRules;
    var next := Apply(o, Mint(c));
    if next != o {
      assert CheckRules(o, o.checks[c]);
      assert TokenRules(o, NewToken(o, o.checks[c]));
      SameBlocks(o, next);
      SameVersions(o, next);
      SideStepKeepsInv(o, next);
    }
  }

  lemma OutboxStepKeepsInv(o: Outbox, step: OutboxStep)
    requires OutboxInv(o)
    ensures OutboxInv(Apply(o, step))
  {
    hide OutboxInv, Apply;
    match step
    case Serve(s) => ServeKeepsInv(o, s);
    case List(f, tasks) => ListKeepsInv(o, f, tasks);
    case LocateVault(f) => LocateKeepsInv(o, f);
    case ReadVersions(f) => ReadKeepsInv(o, f);
    case RecordVersions(f) => RecordKeepsInv(o, f);
    case FinishTask(f) => FinishKeepsInv(o, f);
    case SkipTask(f) => SkipKeepsInv(o, f);
    case BeginCheck(_, _, _) => CheckKeepsInv(o, step);
    case ReadForCheck(_, _) => CheckKeepsInv(o, step);
    case Mint(c) => MintKeepsInv(o, c);
  }

  lemma {:induction false} OutboxRunKeepsInv(o: Outbox, steps: seq<OutboxStep>)
    requires OutboxInv(o)
    ensures OutboxInv(Run(o, steps))
    decreases |steps|
  {
    hide OutboxInv, Apply;
    if steps != [] {
      OutboxStepKeepsInv(o, steps[0]);
      OutboxRunKeepsInv(Apply(o, steps[0]), steps[1..]);
    }
  }

  lemma InitialOutboxInv(members: map<(OrgId, UserId), Role>, emails: map<UserId, Email>, now: int, ttl: nat)
    ensures OutboxInv(Initial(members, emails, now, ttl))
  {
    InitialInv(members, emails, now);
    hide Inv;
  }

  // ---------------------------------------------------------------- theorems

  /** Once a vault has no outbox row, its coordinator has seen the access version of every removal,
      for any number of flushers, failures and membership changes in any order. */
  lemma NoRefreshIsLost(members: map<(OrgId, UserId), Role>, emails: map<UserId, Email>, now: int, ttl: nat,
                        steps: seq<OutboxStep>, v: VaultId, u: UserId)
    ensures var o := Run(Initial(members, emails, now, ttl), steps);
            v !in o.world.db.refreshes ==> Due(o, v, u) <= Minimum(o, v, u)
  {
    InitialOutboxInv(members, emails, now, ttl);
    OutboxRunKeepsInv(Initial(members, emails, now, ttl), steps);
    var o := Run(Initial(members, emails, now, ttl), steps);
    if v !in o.world.db.refreshes {
      assert Known(o, v);
    }
  }

  /** A change queued while a flusher is at work survives the completion of what the flusher listed. */
  lemma ChangeQueuedDuringAFlushSurvives(o: Outbox, f: FlusherId, change: Step, v: VaultId)
    requires OutboxInv(o) && f in o.flushers && o.flushers[f].tasks != [] && o.flushers[f].tasks[0].0 == v
    ensures var changed := Apply(o, Serve(change));
            var finished := Apply(changed, FinishTask(f));
            && v in changed.world.db.refreshes
            && (v in o.world.db.refreshes ==> changed.world.db.refreshes[v] != o.world.db.refreshes[v])
            ==> v in finished.world.db.refreshes && finished.world.db.refreshes[v] == changed.world.db.refreshes[v]
  {
    hide SharingService.Apply, Inv, Known, TokenRules, CheckRules, BlockRules, GrantDue, Transition, Exec, DueAfter, Removed;
    var changed := Apply(o, Serve(change));
    var task := o.flushers[f].tasks[0];
    assert FlusherRules(o, o.flushers[f]);
    assert task in o.flushers[f].tasks && task.1 < o.world.nextRevision;
    if !(change.Administer? && change.statement.Finish?) {
      StepServes(o.world, change);
      assert Requeues(o.world, changed.world, v);
    }
    if && v in changed.world.db.refreshes
       && (v in o.world.db.refreshes ==> changed.world.db.refreshes[v] != o.world.db.refreshes[v]) {
      assert changed.world.db.refreshes[v] != task.1;
      FinishingAnother(changed.world, v, task.1);
    }
  }

  lemma FinishingAnother(w: World, v: VaultId, revision: Revision)
    requires v in w.db.refreshes && w.db.refreshes[v] != revision
    ensures Exec(w, Finish(v, revision)).0.db == w.db
  {
  }

  function Flushing(f: FlusherId, v: VaultId, revision: Revision): seq<OutboxStep> {
    [List(f, [(v, revision)]), LocateVault(f), ReadVersions(f), RecordVersions(f), FinishTask(f)]
  }

  lemma RunsFour(o: Outbox, steps: seq<OutboxStep>)
    requires |steps| >= 4
    ensures Run(o, steps)
         == Run(Apply(Apply(Apply(Apply(o, steps[0]), steps[1]), steps[2]), steps[3]), steps[4..])
  {
    hide Apply;
    assert steps[1..][1..] == steps[2..] && steps[2..][1..] == steps[3..] && steps[3..][1..] == steps[4..];
    var o1 := Apply(o, steps[0]);
    var o2 := Apply(o1, steps[1]);
    assert Run(o, steps) == Run(o2, steps[2..]);
    var o3 := Apply(o2, steps[2]);
    assert Run(o2, steps[2..]) == Run(o3, steps[3..]);
  }

  lemma RunsLast(o: Outbox, steps: seq<OutboxStep>)
    requires |steps| == 1
    ensures Run(o, steps) == Apply(o, steps[0])
  {
    hide Apply;
  }

  predicate FlusherIs(o: Outbox, f: FlusherId, tasks: seq<Task>, phase: Phase) {
    f in o.flushers && o.flushers[f] == Flusher(tasks, phase)
  }

  lemma FlushLists(o: Outbox, f: FlusherId, v: VaultId)
    requires f !in o.flushers && v in o.world.db.refreshes
    ensures var next := Apply(o, List(f, [(v, o.world.db.refreshes[v])]));
            next == o.(flushers := next.flushers) && FlusherIs(next, f, [(v, o.world.db.refreshes[v])], Idle)
  {
  }

  lemma FlushReads(o: Outbox, f: FlusherId, v: VaultId, revision: Revision)
    requires FlusherIs(o, f, [(v, revision)], Idle) && LiveVault(o.world.db, v)
    ensures var next := Apply(Apply(o, LocateVault(f)), ReadVersions(f));
            next == o.(flushers := next.flushers)
            && FlusherIs(next, f, [(v, revision)], Snapshotted(Versions(o.world.db, v)))
  {
    hide Versions, LiveVault;
    var located := Apply(o, LocateVault(f));
    assert located == o.(flushers := located.flushers) && FlusherIs(located, f, [(v, revision)], Located);
  }

  lemma FlushWrites(o: Outbox, f: FlusherId, v: VaultId, revision: Revision)
    requires FlusherIs(o, f, [(v, revision)], Snapshotted(Versions(o.world.db, v)))
    requires v in o.world.db.refreshes && o.world.db.refreshes[v] == revision
    ensures var next := Apply(Apply(o, RecordVersions(f)), FinishTask(f));
            && next == o.(world := next.world, flushers := next.flushers, blocks := Recording(o, v, Versions(o.world.db, v)))
            && next.world.now == o.world.now && v !in next.world.db.refreshes
            && next.world.db == o.world.db.(refreshes := next.world.db.refreshes)
  {
    hide Versions, Recording, Exec;
    var recorded := Apply(o, RecordVersions(f));
    assert recorded == o.(flushers := recorded.flushers, blocks := Recording(o, v, Versions(o.world.db, v)));
    assert FlusherIs(recorded, f, [(v, revision)], Recorded);
    Untouched(o.world, Finish(v, revision));
    FinishedTables(o.world, v, revision);
  }

  lemma SameRecording(o: Outbox, next: Outbox, v: VaultId)
    requires next == o.(flushers := next.flushers)
    ensures Recording(next, v, Versions(o.world.db, v)) == Recording(o, v, Versions(o.world.db, v))
  {
    hide Versions;
    assert forall a, u :: BlockOf(next, a, u) == BlockOf(o, a, u) && Minimum(next, a, u) == Minimum(o, a, u);
  }

  /** An undisturbed flush of a queued live vault removes it from the outbox and blocks versions below
      the present ones; nothing else changes. */
  lemma UndisturbedFlushClears(o: Outbox, f: FlusherId, v: VaultId)
    requires f !in o.flushers && v in o.world.db.refreshes && LiveVault(o.world.db, v)
    ensures var next := Run(o, Flushing(f, v, o.world.db.refreshes[v]));
            && next == o.(world := next.world, flushers := next.flushers, blocks := Recording(o, v, Versions(o.world.db, v)))
            && next.world.now == o.world.now && v !in next.world.db.refreshes
            && next.world.db == o.world.db.(refreshes := next.world.db.refreshes)
  {
    var revision := o.world.db.refreshes[v];
    var steps := Flushing(f, v, revision);
    assert |steps| == 5 && steps[0] == List(f, [(v, revision)]) && steps[1] == LocateVault(f) && steps[2] == ReadVersions(f);
    assert steps[3] == RecordVersions(f) && steps[4] == FinishTask(f);
    RunsFour(o, steps);
    RunsLast(Apply(Apply(Apply(Apply(o, steps[0]), steps[1]), steps[2]), steps[3]), steps[4..]);
    hide *;
    FlushLists(o, f, v);
    var listed := Apply(o, steps[0]);
    FlushReads(listed, f, v, revision);
    var read := Apply(Apply(listed, steps[1]), steps[2]);
    FlushWrites(read, f, v, revision);
    SameRecording(o, read, v);
  }

  // ----------------------------------------------------------- one flush alone

  function FinishAll(db: Db, tasks: seq<Task>, answers: seq<bool>): Db
    requires |tasks| == |answers|
    decreases |tasks|
  {
    if tasks == [] then db
    else
      var last := |tasks| - 1;
      var before := FinishAll(db, tasks[..last], answers[..last]);
      if answers[last] then FinishRefresh(before, tasks[last].0, tasks[last].1) else before
  }

  /** One flush over the listed tasks; `answers` says which coordinator calls succeed. A failure
      keeps its row and makes the flush incomplete, without stopping it. */
  method FlushSharingRefreshes(store: DrizzleSharingStore, tasks: seq<Task>, answers: seq<bool>) returns (complete: bool)
    requires |tasks| == |answers|
    modifies store
    ensures complete <==> forall i | 0 <= i < |answers| :: answers[i]
    ensures store.Contents() == FinishAll(old(store.Contents()), tasks, answers)
  {
    complete := true;
    assert tasks[..0] == [];
    for i := 0 to |tasks|
      invariant complete <==> forall j | 0 <= j < i :: answers[j]
      invariant store.Contents() == FinishAll(old(store.Contents()), tasks[..i], answers[..i])
    {
      assert tasks[..i + 1][..i] == tasks[..i] && answers[..i + 1][..i] == answers[..i];
      if answers[i] {
        store.FinishRefresh(tasks[i].0, tasks[i].1);
      } else {
        complete := false;
      }
    }
    assert tasks[..|tasks|] == tasks && answers[..|tasks|] == answers;
  }

  /** A flush drops exactly the rows it listed, finished and found unchanged. */
  lemma {:induction false} FlushDropsExactlyFinishedRows(db: Db, tasks: seq<Task>, answers: seq<bool>, v: VaultId)
    requires |tasks| == |answers|
    ensures var after := FinishAll(db, tasks, answers);
            && after == db.(refreshes := after.refreshes)
            && (v in after.refreshes <==> v in db.refreshes && !Finished(tasks, answers, v, db.refreshes[v]))
            && (v in after.refreshes ==> after.refreshes[v] == db.refreshes[v])
    decreases |tasks|
  {
    hide Finished;
    if tasks == [] {
      FinishedNone(v, if v in db.refreshes then db.refreshes[v] else 0);
    } else {
      var last := |tasks| - 1;
      FlushDropsExactlyFinishedRows(db, tasks[..last], answers[..last], v);
      if v in db.refreshes {
        FinishedLast(tasks, answers, v, db.refreshes[v]);
      }
    }
  }

  predicate Finished(tasks: seq<Task>, answers: seq<bool>, v: VaultId, revision: Revision)
    requires |tasks| == |answers|
  {
    exists i | 0 <= i < |tasks| :: tasks[i] == (v, revision) && answers[i]
  }

  lemma FinishedNone(v: VaultId, revision: Revision)
    ensures !Finished([], [], v, revision)
  {
  }

  lemma FinishedLast(tasks: seq<Task>, answers: seq<bool>, v: VaultId, revision: Revision)
    requires |tasks| == |answers| > 0
    ensures var last := |tasks| - 1;
            Finished(tasks, answers, v, revision)
            <==> Finished(tasks[..last], answers[..last], v, revision) || (tasks[last] == (v, revision) && answers[last])
  {
    var last := |tasks| - 1;
    assert forall i | 0 <= i < last :: tasks[..last][i] == tasks[i] && answers[..last][i] == answers[i];
  }
}
