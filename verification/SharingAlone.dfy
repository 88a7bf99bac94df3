/** Calls left alone: a thread of SharingService that nobody interrupts, among whatever other calls,
    leaves in the tables what SharingCalls says of its method. */
module SharingAlone {
  import opened Wrappers
  import opened VaultCrypto
  import opened SharingTables
  import opened SharingService
  import opened SharingCalls

  // ------------------------------------------------------ a thread left alone

  datatype Solo = Solo(world: World, thread: Thread)

  function Proceed(s: Solo, enabled: bool, freshId: InvitationId): Solo {
    var action := Next(s.world, s.thread, enabled, freshId);
    match action.statement
    case None => Solo(s.world, action.onSuccess)
    case Some(statement) =>
      var (next, ok) := Exec(s.world, statement);
      Solo(next, if ok then action.onSuccess else action.onFailure)
  }

  predicate Finished(th: Thread) {
    th.pc.Done? || th.pc.Failed?
  }

  /** At most `n` steps, or as many as the thread takes to finish. */
  function Finish(s: Solo, enabled: bool, freshId: InvitationId, n: nat): Solo
    decreases n
  {
    if n == 0 || Finished(s.thread) then s else Finish(Proceed(s, enabled, freshId), enabled, freshId, n - 1)
  }

  lemma FinishOnce(s: Solo, enabled: bool, freshId: InvitationId, n: nat)
    requires n > 0
    ensures !Finished(s.thread) ==> Finish(s, enabled, freshId, n) == Finish(Proceed(s, enabled, freshId), enabled, freshId, n - 1)
    ensures Finished(s.thread) ==> Finish(s, enabled, freshId, n) == s
  {
    hide Proceed;
  }

  /** A step that only reads. */
  lemma ReadsOnce(s: Solo, enabled: bool, freshId: InvitationId, n: nat, after: Thread)
    requires n > 0 && !Finished(s.thread) && Next(s.world, s.thread, enabled, freshId) == Go(after)
    ensures Finish(s, enabled, freshId, n) == Finish(Solo(s.world, after), enabled, freshId, n - 1)
    ensures after.pc.Failed? || after.pc.Done? ==> Finish(s, enabled, freshId, n) == Solo(s.world, after)
  {
    hide Next;
    FinishOnce(s, enabled, freshId, n);
    if n > 1 {
      FinishOnce(Solo(s.world, after), enabled, freshId, n - 1);
    }
  }

  /** A step that runs one statement. */
  lemma WritesOnce(s: Solo, enabled: bool, freshId: InvitationId, n: nat, statement: Statement, after: Thread, failed: Thread)
    requires n > 1 && !Finished(s.thread) && failed.pc.Failed?
    requires Next(s.world, s.thread, enabled, freshId) == Action(Some(statement), after, failed)
    ensures var (next, ok) := Exec(s.world, statement);
            Finish(s, enabled, freshId, n) ==
              if ok then Finish(Solo(next, after), enabled, freshId, n - 1) else Solo(next, failed)
  {
    hide Next, Exec;
    FinishOnce(s, enabled, freshId, n);
    FinishOnce(Solo(Exec(s.world, statement).0, failed), enabled, freshId, n - 1);
  }

  lemma Stops(s: Solo, enabled: bool, freshId: InvitationId, n: nat)
    requires Finished(s.thread)
    ensures Finish(s, enabled, freshId, n) == s
  {
  }

  const MOST_STEPS: nat := 12

  /** A call run to its end from the given tables, clock and histories while nothing else runs. */
  function Alone(w: World, call: Call, enabled: bool, freshId: InvitationId): Solo {
    Finish(Solo(w, NewThread(call)), enabled, freshId, MOST_STEPS)
  }

  /** What a call leaves in the tables, and whether it succeeds. */
  function Left(s: Solo): (Db, bool) {
    (s.world.db, s.thread.pc.Done?)
  }

  // ------------------------------------------------- the same among other calls

  function AdvanceTimes(w: World, t: ThreadId, enabled: bool, freshId: InvitationId, n: nat): World
    decreases n
  {
    if n == 0 then w else AdvanceTimes(SharingService.Apply(w, Advance(t, enabled, freshId)), t, enabled, freshId, n - 1)
  }

  /** The world with one thread where a solo run has brought it. */
  function Amid(s: Solo, threads: map<ThreadId, Thread>, t: ThreadId): World {
    s.world.(threads := threads[t := s.thread])
  }

  lemma ExecIgnoresThreads(w: World, s: Statement, threads: map<ThreadId, Thread>)
    ensures Exec(w.(threads := threads), s) == (Exec(w, s).0.(threads := threads), Exec(w, s).1)
  {
    hide Execute;
    assert forall v, u :: Removals(w.(threads := threads), v, u) == Removals(w, v, u);
    assert forall vaults, u :: CountRemoval(w.(threads := threads), vaults, u) == CountRemoval(w, vaults, u);
    hide CountRemoval;
  }

  lemma NextIgnoresThreads(w: World, th: Thread, enabled: bool, freshId: InvitationId, threads: map<ThreadId, Thread>)
    ensures Next(w.(threads := threads), th, enabled, freshId) == Next(w, th, enabled, freshId)
  {
    hide LiveVault, LiveInvitation, Lower, Trim, ReadVault, ReadMember, AcceptableEnvelope, NewRequest, PasswordWrapper;
    assert forall v, u :: Removals(w.(threads := threads), v, u) == Removals(w, v, u);
    match th.call
    case Start(_, _, _, _) =>
    case Approve(_, _, _, _) =>
    case Complete(_, _, _, _) =>
    case Invite(_, _, _, _, _) =>
    case Respond(_, _, _, _) =>
    case ChangeMember(_, _, _, _) =>
  }

  lemma ProceedsAmid(s: Solo, threads: map<ThreadId, Thread>, t: ThreadId, enabled: bool, freshId: InvitationId)
    ensures SharingService.Apply(Amid(s, threads, t), Advance(t, enabled, freshId))
         == Amid(Proceed(s, enabled, freshId), threads, t)
  {
    var all := threads[t := s.thread];
    NextIgnoresThreads(s.world, s.thread, enabled, freshId, all);
    hide Next, Exec;
    var action := Next(s.world, s.thread, enabled, freshId);
    if action.statement.Some? {
      ExecIgnoresThreads(s.world, action.statement.value, all);
    }
    assert all[t := action.onSuccess] == threads[t := action.onSuccess];
    assert all[t := action.onFailure] == threads[t := action.onFailure];
  }

  lemma FinishedStays(s: Solo, enabled: bool, freshId: InvitationId)
    requires Finished(s.thread)
    ensures Proceed(s, enabled, freshId) == s
  {
    FinishedGoesNowhere(s.world, s.thread, enabled, freshId);
    hide Next, Exec;
  }

  lemma FinishedGoesNowhere(w: World, th: Thread, enabled: bool, freshId: InvitationId)
    requires Finished(th)
    ensures Next(w, th, enabled, freshId) == Go(th)
  {
    hide ReadVault, ReadMember, ReadGrant, AcceptableEnvelope, NewRequest, PasswordWrapper, Lower, Trim, LiveInvitation;
    match th.call
    case Start(_, _, _, _) =>
    case Approve(_, _, _, _) =>
    case Complete(_, _, _, _) =>
    case Invite(_, _, _, _, _) =>
    case Respond(_, _, _, _) =>
    case ChangeMember(_, _, _, _) =>
  }

  lemma {:induction false} AdvancesAmid(s: Solo, threads: map<ThreadId, Thread>, t: ThreadId, enabled: bool, freshId: InvitationId,
                                        n: nat)
    ensures AdvanceTimes(Amid(s, threads, t), t, enabled, freshId, n) == Amid(Finish(s, enabled, freshId, n), threads, t)
    decreases n
  {
    hide Amid, Proceed, SharingService.Apply;
    if n > 0 {
      ProceedsAmid(s, threads, t, enabled, freshId);
      AdvancesAmid(Proceed(s, enabled, freshId), threads, t, enabled, freshId, n - 1);
      if Finished(s.thread) {
        FinishedStays(s, enabled, freshId);
        Stops(s, enabled, freshId, n - 1);
      }
    }
  }

  /** The three reads of a vault guard: which account they are about and what they demand. */
  predicate Guards(th: Thread, user: UserId, manage: bool, again: bool) {
    if !again then
      (th.call.Start? || th.call.Approve? || th.call.Complete?) && user == th.call.user && manage == th.call.Approve?
    else (th.call.Start? && user == th.call.user && !manage) || (th.call.Approve? && th.row.Some? && user == th.row.value.user && !manage)
  }

  lemma NextOfGuard(w: World, th: Thread, enabled: bool, user: UserId, manage: bool, again: bool)
    requires Guards(th, user, manage, again)
    ensures var action := Next(w, th, enabled, 0);
            && (th.pc == (if again then VaultReread else VaultRead) ==>
                  action == ReadVault(w.db, th, th.call.vault, if again then MemberReread else MemberRead))
            && (th.pc == (if again then MemberReread else MemberRead) && th.vaultRow.Some? ==>
                  action == ReadMember(w.db, th, user, manage, if again then GrantReread else GrantRead))
            && (th.pc == (if again then GrantReread else GrantRead) ==>
                  action == ReadGrant(w, th, th.call.vault, user, !manage, AfterGuard(th, again)))
  {
    hide ReadVault, ReadMember, ReadGrant, AcceptableEnvelope, NewRequest;
  }

  function AfterGuard(th: Thread, again: bool): Pc {
    if !again then SharingCheck else if th.call.Start? then RequestRead else Write
  }

  function Guarded(w: World, th: Thread, user: UserId, again: bool): Thread
    requires (th.call.Start? || th.call.Approve? || th.call.Complete?) && th.call.vault in w.db.vaults
  {
    th.(vaultRow := Some(w.db.vaults[th.call.vault]), grant := GrantOf(w.db, th.call.vault, user),
        stamp := Removals(w, th.call.vault, user), pc := AfterGuard(th, again))
  }

  lemma GuardAlone(s: Solo, enabled: bool, n: nat, user: UserId, manage: bool, again: bool)
    requires n >= 4 && Guards(s.thread, user, manage, again) && s.thread.pc == (if again then VaultReread else VaultRead)
    ensures var v := s.thread.call.vault;
            if MayCall(s.world.db, user, v, manage, !manage) then
              Finish(s, enabled, 0, n) == Finish(Solo(s.world, Guarded(s.world, s.thread, user, again)), enabled, 0, n - 3)
            else Finish(s, enabled, 0, n).world == s.world && Finish(s, enabled, 0, n).thread.pc.Failed?
  {
    var w, v := s.world, s.thread.call.vault;
    hide *;
    if MayCall(w.db, user, v, manage, !manage) {
      GuardPasses(s, enabled, n, user, manage, again);
    } else {
      GuardFails(s, enabled, n, user, manage, again);
    }
  }

  lemma GuardPasses(s: Solo, enabled: bool, n: nat, user: UserId, manage: bool, again: bool)
    requires n >= 4 && Guards(s.thread, user, manage, again) && s.thread.pc == (if again then VaultReread else VaultRead)
    requires MayCall(s.world.db, user, s.thread.call.vault, manage, !manage)
    ensures Finish(s, enabled, 0, n) == Finish(Solo(s.world, Guarded(s.world, s.thread, user, again)), enabled, 0, n - 3)
  {
    var w, v := s.world, s.thread.call.vault;
    assert LiveVault(w.db, v);
    hide *;
    var read := VaultAlone(s, enabled, n, user, manage, again);
    MemberAlone(Solo(w, read), enabled, n - 1, user, manage, again);
  }

  lemma GuardFails(s: Solo, enabled: bool, n: nat, user: UserId, manage: bool, again: bool)
    requires n >= 4 && Guards(s.thread, user, manage, again) && s.thread.pc == (if again then VaultReread else VaultRead)
    requires !MayCall(s.world.db, user, s.thread.call.vault, manage, !manage)
    ensures Finish(s, enabled, 0, n).world == s.world && Finish(s, enabled, 0, n).thread.pc.Failed?
  {
    var w, v := s.world, s.thread.call.vault;
    hide *;
    if LiveVault(w.db, v) {
      var read := VaultAlone(s, enabled, n, user, manage, again);
      MemberAlone(Solo(w, read), enabled, n - 1, user, manage, again);
    } else {
      NoVaultAlone(s, enabled, n, user, manage, again);
    }
  }

  lemma VaultAlone(s: Solo, enabled: bool, n: nat, user: UserId, manage: bool, again: bool) returns (read: Thread)
    requires n >= 4 && Guards(s.thread, user, manage, again) && s.thread.pc == (if again then VaultReread else VaultRead)
    requires LiveVault(s.world.db, s.thread.call.vault)
    ensures Finish(s, enabled, 0, n) == Finish(Solo(s.world, read), enabled, 0, n - 1)
    ensures read.call == s.thread.call && read.pc == (if again then MemberReread else MemberRead)
    ensures Guards(read, user, manage, again) && s.thread.call.vault in s.world.db.vaults
    ensures read.vaultRow == Some(s.world.db.vaults[s.thread.call.vault])
    ensures Guarded(s.world, read, user, again) == Guarded(s.world, s.thread, user, again)
  {
    var w, th := s.world, s.thread;
    NextOfGuard(w, th, enabled, user, manage, again);
    read := th.(vaultRow := Some(w.db.vaults[th.call.vault]), pc := if again then MemberReread else MemberRead);
    SameGuard(w, th, read, user, manage, again);
    hide Next, Finish, Proceed, Guarded, Guards;
    ReadsOnce(s, enabled, 0, n, read);
  }

  lemma NoVaultAlone(s: Solo, enabled: bool, n: nat, user: UserId, manage: bool, again: bool)
    requires n >= 4 && Guards(s.thread, user, manage, again) && s.thread.pc == (if again then VaultReread else VaultRead)
    requires !LiveVault(s.world.db, s.thread.call.vault)
    ensures Finish(s, enabled, 0, n) == Solo(s.world, s.thread.(pc := Failed))
  {
    NextOfGuard(s.world, s.thread, enabled, user, manage, again);
    hide Next, Finish, Proceed, Guards;
    ReadsOnce(s, enabled, 0, n, s.thread.(pc := Failed));
  }

  lemma SameGuard(w: World, th: Thread, th1: Thread, user: UserId, manage: bool, again: bool)
    requires Guards(th, user, manage, again) && LiveVault(w.db, th.call.vault)
    requires th1 == th.(vaultRow := Some(w.db.vaults[th.call.vault]), pc := th1.pc)
    ensures Guards(th1, user, manage, again) && th.call.vault in w.db.vaults
    ensures Guarded(w, th1, user, again) == Guarded(w, th, user, again)
  {
    hide Removals;
  }

  lemma MemberAlone(s: Solo, enabled: bool, n: nat, user: UserId, manage: bool, again: bool)
    requires n >= 3 && Guards(s.thread, user, manage, again) && LiveVault(s.world.db, s.thread.call.vault)
    requires s.thread.pc == (if again then MemberReread else MemberRead)
    requires s.thread.vaultRow == Some(s.world.db.vaults[s.thread.call.vault])
    ensures var v := s.thread.call.vault;
            if MayCall(s.world.db, user, v, manage, !manage) then
              Finish(s, enabled, 0, n) == Finish(Solo(s.world, Guarded(s.world, s.thread, user, again)), enabled, 0, n - 2)
            else Finish(s, enabled, 0, n).world == s.world && Finish(s, enabled, 0, n).thread.pc.Failed?
  {
    var w, th := s.world, s.thread;
    var v := th.call.vault;
    hide Next, Finish, Proceed, Removals;
    NextOfGuard(w, th, enabled, user, manage, again);
    var k := (w.db.vaults[v].org, user);
    if k !in w.db.members || (manage && !IsManager(w.db.members[k])) {
      ReadsOnce(s, enabled, 0, n, th.(pc := Failed));
    } else {
      var th1 := th.(pc := if again then GrantReread else GrantRead);
      ReadsOnce(s, enabled, 0, n, th1);
      NextOfGuard(w, th1, enabled, user, manage, again);
      if MayCall(w.db, user, v, manage, !manage) {
        ReadsOnce(Solo(w, th1), enabled, 0, n - 1, Guarded(w, th, user, again));
      } else {
        ReadsOnce(Solo(w, th1), enabled, 0, n - 1, th1.(pc := Failed));
      }
    }
  }

  lemma SharingAlone(s: Solo, enabled: bool, n: nat, next: Pc)
    requires n >= 2 && s.thread.pc == SharingCheck
    requires next == match s.thread.call
                     case Start(_, _, _, _) => Enrolling
                     case Approve(_, _, _, _) => RequestRead
                     case Complete(_, _, _, _) => RequestRead
                     case Invite(_, _, _, _, _) => Write
                     case Respond(_, _, _, _) => InviterRead
                     case ChangeMember(_, _, _, _) => SharingCheck
    requires !s.thread.call.ChangeMember?
    ensures if enabled then Finish(s, enabled, 0, n) == Finish(Solo(s.world, s.thread.(pc := next)), enabled, 0, n - 1)
            else Finish(s, enabled, 0, n) == Solo(s.world, s.thread.(pc := Failed))
  {
    hide Finish, Proceed;
    ReadsOnce(s, enabled, 0, n, s.thread.(pc := if enabled then next else Failed));
  }

  lemma CompleteAlone(w: World, user: UserId, vault: VaultId, id: RequestId, envelope: PasswordEnvelope, enabled: bool)
    ensures Left(Alone(w, Complete(user, vault, id, envelope), enabled, 0))
         == CompleteOutcome(w.db, user, vault, id, envelope, enabled, w.now, w.nextRevision)
  {
    var call := Complete(user, vault, id, envelope);
    var s := Solo(w, NewThread(call));
    hide Finish, Proceed, AcceptableEnvelope, PasswordWrapper, SharingTables.CompleteKeyRequest, Next, Exec;
    GuardAlone(s, enabled, MOST_STEPS, user, false, false);
    if MayCall(w.db, user, vault, false, true) {
      var th := Guarded(w, s.thread, user, false);
      SharingAlone(Solo(w, th), enabled, MOST_STEPS - 3, RequestRead);
      if enabled {
        CompleteAfterGuards(w, th.(pc := RequestRead), enabled, MOST_STEPS - 4);
      }
    }
  }

  lemma NextOfCompletion(w: World, th: Thread, enabled: bool)
    requires th.call.Complete? && th.vaultRow.Some?
    ensures var c := th.call;
            var action := Next(w, th, enabled, 0);
            && (th.pc == RequestRead ==>
                  action ==
                    if c.request !in w.db.requests || w.db.requests[c.request].user != c.user || w.db.requests[c.request].vault != c.vault
                    then Fail(th)
                    else if w.db.requests[c.request].status.Completed? then Go(th.(pc := WrapperRead))
                    else if AcceptableEnvelope(c.envelope, c.vault, c.user, th.vaultRow.value.keyVersion)
                    then Go(th.(row := Some(w.db.requests[c.request]), pc := Write)) else Fail(th))
            && (th.pc == WrapperRead ==>
                  action == Go(th.(pc := if PasswordWrapper(w.db, c.vault, c.user) == Some(c.envelope) then Done else Failed)))
            && (th.pc == Write && th.row.Some? ==>
                  action == Action(Some(CompleteRequest(c.request, th.row.value, c.envelope)), th.(pc := Refreshing), th.(pc := Failed)))
            && (th.pc == Refreshing ==> action == Action(Some(Queue(c.vault)), th.(pc := Done), th.(pc := Failed)))
  {
    hide AcceptableEnvelope, PasswordWrapper;
  }

  lemma CompleteAfterGuards(w: World, th: Thread, enabled: bool, n: nat)
    requires n == 8 && th.call.Complete? && th.pc == RequestRead && th.vaultRow.Some?
    ensures var c := th.call;
            var end := Finish(Solo(w, th), enabled, 0, n);
            var r := w.db.requests;
            (end.world.db, end.thread.pc.Done?) ==
              if c.request !in r || r[c.request].user != c.user || r[c.request].vault != c.vault then (w.db, false)
              else if r[c.request].status.Completed? then (w.db, PasswordWrapper(w.db, c.vault, c.user) == Some(c.envelope))
              else if !AcceptableEnvelope(c.envelope, c.vault, c.user, th.vaultRow.value.keyVersion) then (w.db, false)
              else
                var (completed, ok) := SharingTables.CompleteKeyRequest(w.db, c.request, r[c.request], c.envelope, w.now);
                if ok then (QueueRefresh(completed, c.vault, w.nextRevision + 2), true) else (w.db, false)
  {
    var c := th.call;
    hide Finish, Proceed, AcceptableEnvelope, PasswordWrapper, SharingTables.CompleteKeyRequest, Next;
    NextOfCompletion(w, th, enabled);
    var s := Solo(w, th);
    if c.request !in w.db.requests || w.db.requests[c.request].user != c.user || w.db.requests[c.request].vault != c.vault {
      ReadsOnce(s, enabled, 0, n, th.(pc := Failed));
    } else if w.db.requests[c.request].status.Completed? {
      var th1 := th.(pc := WrapperRead);
      ReadsOnce(s, enabled, 0, n, th1);
      NextOfCompletion(w, th1, enabled);
      ReadsOnce(Solo(w, th1), enabled, 0, n - 1,
                th1.(pc := if PasswordWrapper(w.db, c.vault, c.user) == Some(c.envelope) then Done else Failed));
    } else if !AcceptableEnvelope(c.envelope, c.vault, c.user, th.vaultRow.value.keyVersion) {
      ReadsOnce(s, enabled, 0, n, th.(pc := Failed));
    } else {
      var th1 := th.(row := Some(w.db.requests[c.request]), pc := Write);
      ReadsOnce(s, enabled, 0, n, th1);
      CompletionWrites(w, th1, enabled, n - 1);
    }
  }

  lemma CompletionWrites(w: World, th: Thread, enabled: bool, n: nat)
    requires n > 2 && th.call.Complete? && th.pc == Write && th.vaultRow.Some? && th.row.Some?
    ensures var c := th.call;
            var end := Finish(Solo(w, th), enabled, 0, n);
            var (completed, ok) := SharingTables.CompleteKeyRequest(w.db, c.request, th.row.value, c.envelope, w.now);
            (end.world.db, end.thread.pc.Done?) ==
              if ok then (QueueRefresh(completed, c.vault, w.nextRevision + 2), true) else (w.db, false)
  {
    var c := th.call;
    NextOfCompletion(w, th, enabled);
    var statement := CompleteRequest(c.request, th.row.value, c.envelope);
    CompletionIsExecuted(w, c.request, th.row.value, c.envelope);
    hide Finish, Proceed, SharingTables.CompleteKeyRequest, Next, Exec;
    WritesOnce(Solo(w, th), enabled, 0, n, statement, th.(pc := Refreshing), th.(pc := Failed));
    QueueAlone(Exec(w, statement).0, th.(pc := Refreshing), enabled, n - 1);
  }

  lemma CompletionIsExecuted(w: World, id: RequestId, row: KeyRequest, e: PasswordEnvelope)
    ensures var (next, ok) := Exec(w, CompleteRequest(id, row, e));
            && (next.db, ok) == SharingTables.CompleteKeyRequest(w.db, id, row, e, w.now)
            && next.nextRevision == w.nextRevision + 2
            && (!ok ==> next.db == w.db)
  {
    UnsuccessfulCompletion(w.db, id, row, e, w.now);
    hide SharingTables.CompleteKeyRequest;
  }

  lemma QueueAlone(w: World, th: Thread, enabled: bool, n: nat)
    requires n > 1 && th.call.Complete? && th.pc == Refreshing && th.vaultRow.Some?
    ensures var end := Finish(Solo(w, th), enabled, 0, n);
            (end.world.db, end.thread.pc.Done?) == (QueueRefresh(w.db, th.call.vault, w.nextRevision), true)
  {
    NextOfCompletion(w, th, enabled);
    hide Finish, Proceed, Next;
    WritesOnce(Solo(w, th), enabled, 0, n, Queue(th.call.vault), th.(pc := Done), th.(pc := Failed));
    Stops(Solo(Exec(w, Queue(th.call.vault)).0, th.(pc := Done)), enabled, 0, n - 1);
  }

  lemma UnsuccessfulCompletion(db: Db, id: RequestId, row: KeyRequest, e: PasswordEnvelope, now: int)
    ensures !SharingTables.CompleteKeyRequest(db, id, row, e, now).1 ==> SharingTables.CompleteKeyRequest(db, id, row, e, now).0 == db
  {
    hide MayComplete;
  }

  lemma ApproveAlone(w: World, user: UserId, vault: VaultId, id: RequestId, transfer: TransferEnvelope, enabled: bool)
    ensures Left(Alone(w, Approve(user, vault, id, transfer), enabled, 0))
         == ApproveOutcome(w.db, user, vault, id, transfer, enabled, w.now)
  {
    var call := Approve(user, vault, id, transfer);
    var s := Solo(w, NewThread(call));
    hide Finish, Proceed, SharingTables.ApproveKeyRequest, Next, Exec;
    GuardAlone(s, enabled, MOST_STEPS, user, true, false);
    if MayCall(w.db, user, vault, true, false) {
      var th := Guarded(w, s.thread, user, false);
      SharingAlone(Solo(w, th), enabled, MOST_STEPS - 3, RequestRead);
      if enabled {
        ApproveAfterGuards(w, th.(pc := RequestRead), enabled, MOST_STEPS - 4);
      }
    }
  }

  lemma NextOfApproval(w: World, th: Thread, enabled: bool)
    requires th.call.Approve?
    ensures var c := th.call;
            var action := Next(w, th, enabled, 0);
            && (th.pc == RequestRead ==>
                  action == if && c.request in w.db.requests && w.db.requests[c.request].vault == c.vault
                               && w.db.requests[c.request].user != c.user
                            then Go(th.(row := Some(w.db.requests[c.request]), pc := VaultReread)) else Fail(th))
            && (th.pc == Write ==>
                  action == Action(Some(ApproveRequest(c.request, c.user, c.transfer)), th.(pc := Done), th.(pc := Failed)))
  {
  }

  lemma ApproveAfterGuards(w: World, th: Thread, enabled: bool, n: nat)
    requires n == 8 && th.call.Approve? && th.pc == RequestRead
    ensures var c := th.call;
            var end := Finish(Solo(w, th), enabled, 0, n);
            var r := w.db.requests;
            (end.world.db, end.thread.pc.Done?) ==
              if c.request !in r || r[c.request].vault != c.vault || r[c.request].user == c.user
                 || !MayCall(w.db, r[c.request].user, c.vault, false, true) then (w.db, false)
              else SharingTables.ApproveKeyRequest(w.db, c.request, c.user, c.transfer, w.now)
  {
    var c := th.call;
    hide Finish, Proceed, SharingTables.ApproveKeyRequest, Next, MayCall;
    NextOfApproval(w, th, enabled);
    if c.request in w.db.requests && w.db.requests[c.request].vault == c.vault && w.db.requests[c.request].user != c.user {
      var recipient := w.db.requests[c.request].user;
      var th1 := th.(row := Some(w.db.requests[c.request]), pc := VaultReread);
      ReadsOnce(Solo(w, th), enabled, 0, n, th1);
      GuardAlone(Solo(w, th1), enabled, n - 1, recipient, false, true);
      if MayCall(w.db, recipient, c.vault, false, true) {
        CalledVaultExists(w.db, recipient, c.vault);
        var th2 := Guarded(w, th1, recipient, true);
        NextOfApproval(w, th2, enabled);
        var statement := ApproveRequest(c.request, c.user, c.transfer);
        WritesOnce(Solo(w, th2), enabled, 0, n - 4, statement, th2.(pc := Done), th2.(pc := Failed));
        Stops(Solo(Exec(w, statement).0, th2.(pc := Done)), enabled, 0, n - 5);
      }
    } else {
      ReadsOnce(Solo(w, th), enabled, 0, n, th.(pc := Failed));
    }
  }

  lemma CalledVaultExists(db: Db, user: UserId, vault: VaultId)
    requires MayCall(db, user, vault, false, true)
    ensures vault in db.vaults
  {
  }

  /** A call that ends well has read back or written the request's row. */
  predicate ReportsItsRow(s: Solo, id: RequestId) {
    s.thread.pc.Done? ==> id in s.world.db.requests && s.thread.row == Some(s.world.db.requests[id])
  }

  lemma StartAlone(w: World, user: UserId, vault: VaultId, id: RequestId, publicKey: KeyPairId, enabled: bool)
    ensures var alone := Alone(w, Start(user, vault, id, publicKey), enabled, 0);
            Left(alone) == StartOutcome(w.db, user, vault, id, publicKey, enabled, w.now) && ReportsItsRow(alone, id)
  {
    var call := Start(user, vault, id, publicKey);
    var s := Solo(w, NewThread(call));
    hide Finish, Proceed, Next, StartedOn, EnsureEnrollment, MayCall, ReportsItsRow;
    GuardAlone(s, enabled, MOST_STEPS, user, false, false);
    if MayCall(w.db, user, vault, false, true) {
      CalledVaultExists(w.db, user, vault);
      var th := Guarded(w, s.thread, user, false);
      SharingAlone(Solo(w, th), enabled, MOST_STEPS - 3, Enrolling);
      if enabled {
        EnrollAlone(w, th.(pc := Enrolling), enabled, MOST_STEPS - 4);
      } else {
        FailuresReportNothing(Alone(w, call, enabled, 0), id);
      }
    } else {
      FailuresReportNothing(Alone(w, call, enabled, 0), id);
    }
  }

  lemma FailuresReportNothing(s: Solo, id: RequestId)
    requires s.thread.pc.Failed?
    ensures ReportsItsRow(s, id)
  {
  }

  lemma EnrollAlone(w: World, th: Thread, enabled: bool, n: nat)
    requires n == 8 && th.call.Start? && th.pc == Enrolling
    ensures var c := th.call;
            var end := Finish(Solo(w, th), enabled, 0, n);
            && Left(end) == StartedOn(EnsureEnrollment(w.db, c.vault, c.user), c.user, c.vault, c.request, c.publicKey, w.now)
            && ReportsItsRow(end, c.request)
  {
    var c := th.call;
    NextOfStarting(w, th, enabled);
    hide Finish, Proceed, Next, StartedOn, EnsureEnrollment, ReportsItsRow;
    WritesOnce(Solo(w, th), enabled, 0, n, Enroll(c.vault, c.user), th.(pc := VaultReread), th.(pc := Failed));
    StartAfterEnrollment(Exec(w, Enroll(c.vault, c.user)).0, th.(pc := VaultReread), enabled, n - 1);
  }

  lemma NextOfStarting(w: World, th: Thread, enabled: bool)
    requires th.call.Start?
    ensures var c := th.call;
            var action := Next(w, th, enabled, 0);
            && (th.pc == Enrolling ==>
                  action == Action(Some(Enroll(c.vault, c.user)), th.(pc := VaultReread), th.(pc := Failed)))
            && (th.pc == RequestRead ==>
                  action ==
                    if c.request !in w.db.requests then Go(th.(pc := Write))
                    else
                      var existing := w.db.requests[c.request];
                      if existing.user == c.user && existing.vault == c.vault && existing.publicKey == c.publicKey
                      then Go(th.(row := Some(existing), pc := Done)) else Fail(th))
            && (th.pc == Write ==>
                  var row := RequestFor(th.grant, c.user, c.vault, c.publicKey, w.now);
                  action == Action(Some(InsertRequest(c.request, row, th.stamp)), th.(row := Some(row), pc := Done), th.(pc := Failed)))
  {
  }

  lemma StartAfterEnrollment(w: World, th: Thread, enabled: bool, n: nat)
    requires n == 7 && th.call.Start? && th.pc == VaultReread
    ensures var end := Finish(Solo(w, th), enabled, 0, n);
            && Left(end) == StartedOn(w.db, th.call.user, th.call.vault, th.call.request, th.call.publicKey, w.now)
            && ReportsItsRow(end, th.call.request)
  {
    var c := th.call;
    hide Finish, Proceed, Next, MayCall, SharingTables.CreateKeyRequest, RequestFor;
    GuardAlone(Solo(w, th), enabled, n, c.user, false, true);
    if MayCall(w.db, c.user, c.vault, false, true) {
      CalledVaultExists(w.db, c.user, c.vault);
      var th1 := Guarded(w, th, c.user, true);
      NextOfStarting(w, th1, enabled);
      if c.request !in w.db.requests {
        ReadsOnce(Solo(w, th1), enabled, 0, n - 3, th1.(pc := Write));
        StartWrites(w, th1.(pc := Write), enabled, n - 4);
      } else {
        var existing := w.db.requests[c.request];
        var after := if existing.user == c.user && existing.vault == c.vault && existing.publicKey == c.publicKey
                     then th1.(row := Some(existing), pc := Done) else th1.(pc := Failed);
        ReadsOnce(Solo(w, th1), enabled, 0, n - 3, after);
      }
    }
  }

  lemma StartWrites(w: World, th: Thread, enabled: bool, n: nat)
    requires n > 1 && th.call.Start? && th.pc == Write && th.call.request !in w.db.requests
    ensures var c := th.call;
            var end := Finish(Solo(w, th), enabled, 0, n);
            var row := RequestFor(th.grant, c.user, c.vault, c.publicKey, w.now);
            && Left(end) == SharingTables.CreateKeyRequest(w.db, c.request, row) && ReportsItsRow(end, c.request)
  {
    var c := th.call;
    hide Finish, Proceed, Next, SharingTables.CreateKeyRequest, RequestFor;
    NextOfStarting(w, th, enabled);
    var row := RequestFor(th.grant, c.user, c.vault, c.publicKey, w.now);
    var statement := InsertRequest(c.request, row, th.stamp);
    WritesOnce(Solo(w, th), enabled, 0, n, statement, th.(row := Some(row), pc := Done), th.(pc := Failed));
    FreshRequestIsCreated(w.db, c.request, row);
    Stops(Solo(Exec(w, statement).0, th.(row := Some(row), pc := Done)), enabled, 0, n - 1);
  }

  lemma FreshRequestIsCreated(db: Db, id: RequestId, row: KeyRequest)
    requires id !in db.requests
    ensures SharingTables.CreateKeyRequest(db, id, row).1
    ensures id in SharingTables.CreateKeyRequest(db, id, row).0.requests
    ensures SharingTables.CreateKeyRequest(db, id, row).0.requests[id] == row
  {
  }

  lemma NextOfInviting(w: World, th: Thread, enabled: bool, freshId: InvitationId)
    requires th.call.Invite?
    ensures var c := th.call;
            var action := Next(w, th, enabled, freshId);
            && (th.pc == ActorRead ==>
                  action ==
                    if || (c.org, c.user) !in w.db.members || !IsManager(w.db.members[(c.org, c.user)]) || c.role.Owner?
                       || (c.role.Admin? && !w.db.members[(c.org, c.user)].Owner?) then Fail(th) else Go(th.(pc := SharingCheck)))
            && (th.pc == SharingCheck ==> action == Go(th.(pc := if enabled then Write else Failed)))
            && (th.pc == Write ==>
                  action == Action(Some(InsertInvitation(freshId, c.org, Lower(Trim(c.email)), c.role, c.user, c.memberLimit)),
                                   th.(pc := Done), th.(pc := Failed)))
  {
    hide Trim, Lower;
  }

  lemma InviteAlone(w: World, user: UserId, org: OrgId, email: Email, role: Role, memberLimit: nat, enabled: bool,
                    freshId: InvitationId)
    ensures Left(Alone(w, SharingService.Invite(user, org, email, role, memberLimit), enabled, freshId))
         == InviteOutcome(w.db, user, org, email, role, memberLimit, enabled, freshId, w.now)
  {
    var th := NewThread(SharingService.Invite(user, org, email, role, memberLimit));
    hide Finish, Proceed, Next, Lower, Trim, MayInvite;
    NextOfInviting(w, th, enabled, freshId);
    if !MayAskFor(w.db, user, org, role) {
      ReadsOnce(Solo(w, th), enabled, freshId, MOST_STEPS, th.(pc := Failed));
    } else {
      var th1 := th.(pc := SharingCheck);
      ReadsOnce(Solo(w, th), enabled, freshId, MOST_STEPS, th1);
      NextOfInviting(w, th1, enabled, freshId);
      var th2 := th1.(pc := if enabled then Write else Failed);
      ReadsOnce(Solo(w, th1), enabled, freshId, MOST_STEPS - 1, th2);
      if enabled {
        NextOfInviting(w, th2, enabled, freshId);
        var statement := InsertInvitation(freshId, org, Lower(Trim(email)), role, user, memberLimit);
        WritesOnce(Solo(w, th2), enabled, freshId, MOST_STEPS - 2, statement, th2.(pc := Done), th2.(pc := Failed));
        Stops(Solo(Exec(w, statement).0, th2.(pc := Done)), enabled, freshId, MOST_STEPS - 3);
      }
    }
  }

  lemma NextOfResponding(w: World, th: Thread, enabled: bool)
    requires th.call.Respond?
    ensures var c := th.call;
            var action := Next(w, th, enabled, 0);
            && (th.pc == InvitationRead ==>
                  action ==
                    if c.invitation !in w.db.invitations || Lower(w.db.invitations[c.invitation].email) != Lower(c.email) then Fail(th)
                    else if w.db.invitations[c.invitation].status.Accepted? then Go(th.(pc := Done))
                    else if !LiveInvitation(w.db, c.invitation, w.now) then Fail(th)
                    else Go(th.(invite := Some(w.db.invitations[c.invitation]), pc := if c.accept then SharingCheck else Write)))
            && (th.pc == InviterRead && th.invite.Some? ==>
                  action == Go(th.(pc := if MayAdmit(w.db, th.invite.value) then Write else Failed)))
            && (th.pc == Write && th.invite.Some? ==>
                  action == Action(Some(if c.accept then Accept(c.invitation, th.invite.value, c.user)
                                        else UpdateInvitation(c.invitation, Rejected)), th.(pc := Done), th.(pc := Failed)))
  {
    hide Lower, LiveInvitation;
  }

  lemma RespondAlone(w: World, user: UserId, email: Email, id: InvitationId, accept: bool, enabled: bool)
    ensures Left(Alone(w, SharingService.Respond(user, email, id, accept), enabled, 0))
         == RespondOutcome(w.db, user, email, id, accept, enabled, w.now, w.nextRevision)
  {
    var db := w.db;
    var th := NewThread(SharingService.Respond(user, email, id, accept));
    hide Finish, Proceed, Next, Lower, LiveInvitation, AcceptInvitation, SetInvitationStatus, MayAdmit;
    NextOfResponding(w, th, enabled);
    if id !in db.invitations || Lower(db.invitations[id].email) != Lower(email) {
      ReadsOnce(Solo(w, th), enabled, 0, MOST_STEPS, th.(pc := Failed));
    } else if db.invitations[id].status.Accepted? {
      ReadsOnce(Solo(w, th), enabled, 0, MOST_STEPS, th.(pc := Done));
    } else if !LiveInvitation(db, id, w.now) {
      ReadsOnce(Solo(w, th), enabled, 0, MOST_STEPS, th.(pc := Failed));
    } else {
      var th1 := th.(invite := Some(db.invitations[id]), pc := if accept then SharingCheck else Write);
      ReadsOnce(Solo(w, th), enabled, 0, MOST_STEPS, th1);
      if !accept {
        RespondWrites(w, th1, enabled, MOST_STEPS - 1);
      } else {
        SharingAlone(Solo(w, th1), enabled, MOST_STEPS - 1, InviterRead);
        if enabled {
          var th2 := th1.(pc := InviterRead);
          NextOfResponding(w, th2, enabled);
          var th3 := th2.(pc := if MayAdmit(db, db.invitations[id]) then Write else Failed);
          ReadsOnce(Solo(w, th2), enabled, 0, MOST_STEPS - 2, th3);
          if MayAdmit(db, db.invitations[id]) {
            RespondWrites(w, th3, enabled, MOST_STEPS - 3);
          }
        }
      }
    }
  }

  lemma RespondWrites(w: World, th: Thread, enabled: bool, n: nat)
    requires n > 1 && th.call.Respond? && th.pc == Write && th.invite.Some?
    ensures var c := th.call;
            var end := Finish(Solo(w, th), enabled, 0, n);
            (end.world.db, end.thread.pc.Done?) ==
              if c.accept then AcceptInvitation(w.db, c.invitation, th.invite.value, c.user, w.now, w.nextRevision, w.nextRevision + 1)
              else (SetInvitationStatus(w.db, c.invitation, Rejected), true)
  {
    var c := th.call;
    hide Finish, Proceed, Next, AcceptInvitation, SetInvitationStatus;
    NextOfResponding(w, th, enabled);
    var statement := if c.accept then Accept(c.invitation, th.invite.value, c.user) else UpdateInvitation(c.invitation, Rejected);
    WritesOnce(Solo(w, th), enabled, 0, n, statement, th.(pc := Done), th.(pc := Failed));
    Stops(Solo(Exec(w, statement).0, th.(pc := Done)), enabled, 0, n - 1);
  }

  lemma NextOfChanging(w: World, th: Thread, enabled: bool)
    requires th.call.ChangeMember?
    ensures var c := th.call;
            var action := Next(w, th, enabled, 0);
            && (th.pc == ActorRead ==>
                  action == if (c.org, c.user) in w.db.members
                            then Go(th.(role := Some(w.db.members[(c.org, c.user)]), pc := TargetRead)) else Fail(th))
            && (th.pc == TargetRead && th.role.Some? ==>
                  action ==
                    if (c.org, c.target) !in w.db.members then Go(th.(pc := if c.newRole.None? then Done else Failed))
                    else Go(th.(pc := if MayChange(th.role.value, w.db.members[(c.org, c.target)], c.user == c.target, c.newRole)
                                      then Write else Failed)))
            && (th.pc == Write ==>
                  action == Action(Some(if c.newRole.Some? then UpdateRole(c.org, c.target, c.newRole.value)
                                        else Remove(c.org, c.target)), th.(pc := Done), th.(pc := Failed)))
  {
  }

  lemma ChangeAlone(w: World, user: UserId, org: OrgId, target: UserId, newRole: Option<Role>,
                    enabled: bool)
    ensures Left(Alone(w, SharingService.ChangeMember(user, org, target, newRole), enabled, 0))
         == ChangeOutcome(w.db, user, org, target, newRole, w.now, w.nextRevision)
  {
    var db := w.db;
    var th := NewThread(SharingService.ChangeMember(user, org, target, newRole));
    hide Finish, Proceed, Next, ChangeRole, RemoveMember, CountRemoval;
    NextOfChanging(w, th, enabled);
    if (org, user) !in db.members {
      ReadsOnce(Solo(w, th), enabled, 0, MOST_STEPS, th.(pc := Failed));
    } else {
      var th1 := th.(role := Some(db.members[(org, user)]), pc := TargetRead);
      ReadsOnce(Solo(w, th), enabled, 0, MOST_STEPS, th1);
      NextOfChanging(w, th1, enabled);
      if (org, target) !in db.members {
        ReadsOnce(Solo(w, th1), enabled, 0, MOST_STEPS - 1, th1.(pc := if newRole.None? then Done else Failed));
      } else {
        var may := MayChange(db.members[(org, user)], db.members[(org, target)], user == target, newRole);
        var th2 := th1.(pc := if may then Write else Failed);
        ReadsOnce(Solo(w, th1), enabled, 0, MOST_STEPS - 1, th2);
        if may {
          ChangeWrites(w, th2, enabled, MOST_STEPS - 2);
        }
      }
    }
  }

  lemma ChangeWrites(w: World, th: Thread, enabled: bool, n: nat)
    requires n > 1 && th.call.ChangeMember? && th.pc == Write
    ensures var c := th.call;
            Left(Finish(Solo(w, th), enabled, 0, n)) ==
              (if c.newRole.Some? then ChangeRole(w.db, c.org, c.target, c.newRole.value)
               else RemoveMember(w.db, c.org, c.target, w.now, w.nextRevision, w.nextRevision + 1), true)
  {
    var c := th.call;
    hide Finish, Proceed, Next, ChangeRole, RemoveMember, CountRemoval;
    NextOfChanging(w, th, enabled);
    var statement := if c.newRole.Some? then UpdateRole(c.org, c.target, c.newRole.value) else Remove(c.org, c.target);
    WritesOnce(Solo(w, th), enabled, 0, n, statement, th.(pc := Done), th.(pc := Failed));
    Stops(Solo(Exec(w, statement).0, th.(pc := Done)), enabled, 0, n - 1);
  }

  // ------------------------------------------------------------------ theorem

  lemma {:induction false} ClockStands(s: Solo, enabled: bool, freshId: InvitationId, n: nat)
    ensures Finish(s, enabled, freshId, n).world.now == s.world.now
    decreases n
  {
    hide Next, Exec;
    if n > 0 && !Finished(s.thread) {
      var action := Next(s.world, s.thread, enabled, freshId);
      if action.statement.Some? {
        ClockStandsOnce(s.world, action.statement.value);
      }
      ClockStands(Proceed(s, enabled, freshId), enabled, freshId, n - 1);
    }
  }

  lemma ClockStandsOnce(w: World, s: Statement)
    ensures Exec(w, s).0.now == w.now
  {
    hide Execute, CountRemoval;
  }

  lemma AloneIsItsMethod(w: World, call: Call, enabled: bool, freshId: InvitationId)
    requires call.Invite? || freshId == 0
    ensures var alone := Alone(w, call, enabled, freshId);
            && Left(alone) == Outcome(w.db, call, enabled, freshId, w.now, w.nextRevision)
            && (call.Start? ==> ReportsItsRow(alone, call.request))
  {
    hide Alone, Left, ReportsItsRow, StartOutcome, ApproveOutcome, CompleteOutcome, InviteOutcome, RespondOutcome, ChangeOutcome;
    match call
    case Start(user, vault, id, publicKey) => StartAlone(w, user, vault, id, publicKey, enabled);
    case Approve(user, vault, id, transfer) => ApproveAlone(w, user, vault, id, transfer, enabled);
    case Complete(user, vault, id, envelope) => CompleteAlone(w, user, vault, id, envelope, enabled);
    case Invite(user, org, email, role, limit) => InviteAlone(w, user, org, email, role, limit, enabled, freshId);
    case Respond(user, email, id, accept) => RespondAlone(w, user, email, id, accept, enabled);
    case ChangeMember(user, org, target, newRole) => ChangeAlone(w, user, org, target, newRole, enabled);
  }

  /** A call that nobody interrupts, among any others, succeeds exactly if its method does, leaves in
      the tables what the method leaves, and leaves the clock and the other calls alone. */
  lemma UndisturbedCall(w: World, t: ThreadId, call: Call, enabled: bool, freshId: InvitationId)
    requires t !in w.threads && (call.Invite? || freshId == 0)
    ensures var done := AdvanceTimes(SharingService.Apply(w, Begin(t, call)), t, enabled, freshId, MOST_STEPS);
            && t in done.threads && done.threads - {t} == w.threads && done.now == w.now
            && (done.db, done.threads[t].pc.Done?) == Outcome(w.db, call, enabled, freshId, w.now, w.nextRevision)
            && (call.Start? && done.threads[t].pc.Done? ==>
                  call.request in done.db.requests && done.threads[t].row == Some(done.db.requests[call.request]))
  {
    hide AdvanceTimes, Finish, NewThread, Outcome;
    AdvancesAmid(Solo(w, NewThread(call)), w.threads, t, enabled, freshId, MOST_STEPS);
    AloneIsItsMethod(w, call, enabled, freshId);
    ClockStands(Solo(w, NewThread(call)), enabled, freshId, MOST_STEPS);
  }
}
