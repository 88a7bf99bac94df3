/** What the steps of a refresh and of a token's issue do, with the constants written out. */
module RefreshEffects {
  import opened Wrappers
  import opened VaultCrypto
  import opened SharingTables
  import opened SharingService
  import opened SharingEpochs
  import opened SharingRefresh

  /** A coordinator keeps the higher of two versions and the later of two ends; a block it records lasts as
      long as a token lives, at least two minutes. First versions are not recorded. */
  lemma RecordsExactly(o: Outbox, f: FlusherId)
    requires f in o.flushers && o.flushers[f].tasks != [] && o.flushers[f].phase.Snapshotted?
    ensures var after := SharingRefresh.Apply(o, RecordVersions(f));
            var v, versions := o.flushers[f].tasks[0].0, o.flushers[f].phase.versions;
            var end := o.world.now + if o.ttl < 120_000 then 120_000 else o.ttl;
            && after == o.(blocks := after.blocks, flushers := o.flushers[f := Flusher(o.flushers[f].tasks, Recorded)])
            && (forall u :: (v, u) in after.blocks <==> (v, u) in o.blocks || (u in versions && versions[u] > 1))
            && (forall u | u in versions && versions[u] > 1 ::
                  after.blocks[(v, u)]
                  == if (v, u) !in o.blocks then Block(versions[u], end)
                     else Block(if versions[u] < o.blocks[(v, u)].minimum then o.blocks[(v, u)].minimum else versions[u],
                                if end < o.blocks[(v, u)].expiresAt then o.blocks[(v, u)].expiresAt else end))
            && (forall k | k in o.blocks && (k.0 != v || k.1 !in versions || versions[k.1] <= 1) ::
                  k in after.blocks && after.blocks[k] == o.blocks[k])
            && (forall k | k in after.blocks && k.0 != v :: k in o.blocks)
  {
  }

  /** A token is refused exactly while the coordinator's block on its user lasts and asks for a later
      version, and has expired from its end on. */
  lemma RefusesExactly(o: Outbox, t: Token)
    ensures Refused(o, t) <==>
              && (t.vault, t.user) in o.blocks && o.world.now < o.blocks[(t.vault, t.user)].expiresAt
              && t.accessVersion < o.blocks[(t.vault, t.user)].minimum
    ensures Expired(o, t) <==> t.expiresAt <= o.world.now
  {
  }

  /** A token is minted exactly from a check that answered, once; it carries the grant's version as it was
      read and lives from the last full second. */
  lemma MintsExactly(o: Outbox, c: CheckId)
    ensures var after := SharingRefresh.Apply(o, Mint(c));
            if c in o.checks && o.checks[c].pc.Answered? && o.checks[c].pc.result.Ok? then
              var check := o.checks[c];
              && after == o.(tokens := after.tokens, checks := o.checks - {c})
              && after.tokens == o.tokens + {Token(check.vault, check.user,
                                                   if check.grant.Some? then check.grant.value.accessVersion else 0,
                                                   o.world.now - o.world.now % 1000 + o.ttl, check.stamp)}
            else after == o
  {
  }

  /** Checks begin with nothing read, and read the tables of the moment. */
  lemma ChecksExactly(o: Outbox, c: CheckId, v: VaultId, u: UserId, enabled: bool)
    ensures SharingRefresh.Apply(o, BeginCheck(c, v, u))
         == if c in o.checks then o else o.(checks := o.checks[c := NewCheck(v, u)])
    ensures SharingRefresh.Apply(o, ReadForCheck(c, enabled))
         == if c in o.checks then o.(checks := o.checks[c := AdvanceCheck(o.world, o.checks[c], enabled)]) else o
  {
    hide AdvanceCheck;
  }

  /** The tasks a flusher takes are rows of the outbox as they are; it locates a present vault before it
      reads every user's version there. */
  lemma FlushReadsExactly(o: Outbox, f: FlusherId, tasks: seq<Task>)
    ensures SharingRefresh.Apply(o, List(f, tasks))
         == if f !in o.flushers && (forall task | task in tasks :: task.0 in o.world.db.refreshes
                                                                   && o.world.db.refreshes[task.0] == task.1)
            then o.(flushers := o.flushers[f := Flusher(tasks, Idle)]) else o
    ensures f in o.flushers && o.flushers[f].tasks != [] && o.flushers[f].phase.Idle? ==>
              var v := o.flushers[f].tasks[0].0;
              SharingRefresh.Apply(o, LocateVault(f))
              == if v in o.world.db.vaults && o.world.db.vaults[v].deletedAt == None
                 then o.(flushers := o.flushers[f := o.flushers[f].(phase := Located)]) else o
    ensures f in o.flushers && o.flushers[f].tasks != [] && o.flushers[f].phase.Located? ==>
              var after := SharingRefresh.Apply(o, ReadVersions(f));
              && f in after.flushers && after.flushers[f].phase.Snapshotted?
              && after == o.(flushers := o.flushers[f := o.flushers[f].(phase := after.flushers[f].phase)])
              && var v, versions := o.flushers[f].tasks[0].0, after.flushers[f].phase.versions;
                 && (forall u :: u in versions <==> (v, u) in o.world.db.grants)
                 && (forall u | u in versions :: versions[u] == o.world.db.grants[(v, u)].accessVersion)
  {
  }

  /** A recorded task is finished, which removes its row exactly if the row has not changed since it was
      listed; a task can be skipped at any point, which keeps the row. */
  lemma FlushFinishesExactly(o: Outbox, f: FlusherId)
    requires f in o.flushers && o.flushers[f].tasks != []
    ensures var task, rest := o.flushers[f].tasks[0], o.flushers[f].tasks[1..];
            var after := SharingRefresh.Apply(o, FinishTask(f));
            if o.flushers[f].phase.Recorded? then
              && after == o.(world := after.world, flushers := o.flushers[f := Flusher(rest, Idle)])
              && after.world.db == o.world.db.(refreshes := after.world.db.refreshes)
              && after.world.now == o.world.now && after.world.threads == o.world.threads
              && after.world.db.refreshes == (if task.0 in o.world.db.refreshes && o.world.db.refreshes[task.0] == task.1
                                              then o.world.db.refreshes - {task.0} else o.world.db.refreshes)
            else after == o
    ensures SharingRefresh.Apply(o, SkipTask(f))
         == o.(flushers := o.flushers[f := Flusher(o.flushers[f].tasks[1..], Idle)])
  {
    hide Recording, Versions, AdvanceCheck, DueAfter;
  }

  /** The steps of the service are its own, except that rows leave the outbox only through a flusher. */
  lemma ServesExactly(o: Outbox, step: Step)
    ensures var after := SharingRefresh.Apply(o, Serve(step));
            if step.Administer? && step.statement.Finish? then after == o
            else after == o.(world := SharingService.Apply(o.world, step), due := after.due)
  {
    hide SharingService.Apply, DueAfter;
  }
}
