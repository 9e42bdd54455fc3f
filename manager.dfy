/**
 * The worker manager of one scheduling server: it decides which server owns
 * an app's scheduling rights (`lookup`, an optimistic election guarded by an
 * advisory lock record), keeps a registry of connected workers, and runs the
 * periodic scheduling tick that dispatches cron, workflow and frequent jobs
 * for the apps this server owns.
 *
 * The storage backend, the health-check ping, the lock store, the clock and
 * the three dispatchers are outside the model: what they answer is given as
 * parameters (`Round`, `OwnedApps`, the `fails` oracle).
 */
module Manager {
  import opened Options
  import opened Errors

  /** Number of iterations of the election loop. */
  const RETRY_TIMES: nat := 3
  /** Time-to-live written into the election lock record, in milliseconds. */
  const LOCK_TTL_MILLIS: nat := 30000
  /** Back-off after a lock that could not be saved, in milliseconds. */
  const LOCK_BACKOFF_MILLIS: nat := 500
  /** Reply code of a healthy server's ping. */
  const PING_OK: int := 200

  type AppId = U64

  /** The persisted ownership record of an app. */
  datatype AppInfo = AppInfo(id: AppId, appName: string, currentServer: string, gmtModified: int)

  /** The persisted election lock: resource, time-to-live and would-be owner. */
  datatype LockRecord = LockRecord(lockedResource: string, maxLockTime: nat, ownerIp: string)

  /** A connected worker, known by its address. */
  datatype Worker = Worker(address: string)

  /** The external actions of a lookup, in the order they happen. */
  datatype Action =
    | Fetch(appId: AppId)
    | Ping(server: string)
    | SaveLock(lock: LockRecord)
    | Sleep(millis: nat)
    | SaveApp(app: AppInfo)

  /**
   * What the outside world answers during one iteration of the election loop:
   * whether each store access succeeds, the reply code of each ping, and the
   * clock at usurpation.
   */
  datatype Round = Round(
    fetchOk: bool,
    ownerReply: int,
    lockSaved: bool,
    refetchOk: bool,
    refetchReply: int,
    now: int,
    usurpSaved: bool)

  /** The result of a lookup, the store it leaves behind, and what it did. */
  datatype Outcome = Outcome(
    result: Result<string>,
    apps: map<AppId, AppInfo>,
    locks: map<string, LockRecord>,
    trace: seq<Action>)

  // ---------------------------------------------------------------------
  // Single-query decisions

  /**
   * `is_active`: a server listed in `cache` is dead without asking it;
   * any other server is alive exactly when its ping answers 200.
   */
  function IsActive(target: string, cache: seq<string>, replyCode: int): (alive: bool)
    ensures target in cache ==> !alive
    ensures target !in cache ==> (alive <==> replyCode == PING_OK)
  {
    target !in cache && replyCode == PING_OK
  }

  /** The lock record a caller writes to contend for an app. */
  function ElectionLock(appId: AppId, caller: string): (l: LockRecord)
    ensures l.lockedResource == DecimalString(appId) && l.ownerIp == caller
    ensures l.maxLockTime == LOCK_TTL_MILLIS
  {
    LockRecord(DecimalString(appId), LOCK_TTL_MILLIS, caller)
  }

  /** The lock table after a save of `l` that succeeded or not. */
  function SaveLockRecord(locks: map<string, LockRecord>, l: LockRecord, saved: bool): (r: map<string, LockRecord>)
    ensures saved ==> l.lockedResource in r && r[l.lockedResource] == l
    ensures !saved ==> r == locks
    ensures forall k :: k != l.lockedResource ==> (k in r <==> k in locks)
    ensures forall k :: k in locks && k != l.lockedResource ==> r[k] == locks[k]
  {
    if saved then locks[l.lockedResource := l] else locks
  }

  /** True when the store holds an app registered under `appName`. */
  predicate HasAppNamed(apps: map<AppId, AppInfo>, appName: string) {
    exists id | id in apps :: apps[id].appName == appName
  }

  // ---------------------------------------------------------------------
  // Usurpation

  /**
   * The record the usurping server saves: the caller becomes the owner and
   * the modification time is the current clock; nothing else changes.
   */
  function Usurp(app: AppInfo, caller: string, now: int): (r: AppInfo)
    ensures r.currentServer == caller && r.gmtModified == now
    ensures r.id == app.id && r.appName == app.appName
  {
    app.(currentServer := caller, gmtModified := now)
  }

  /** What `Option::take` does: hand out the content and leave `None` behind. */
  function Take<T>(o: Option<T>): (r: (Option<T>, Option<T>))
    ensures r.0 == o && r.1 == None
  {
    (o, None)
  }

  /** The outcome of the usurpation statements as the source writes them. */
  datatype UsurpStep = Panicked | Saved(app: AppInfo)

  /**
   * The usurpation step exactly as written: the first `take()` moves the
   * record out, its copy is updated and dropped; the second `take()` finds
   * `None`, and unwrapping it panics before anything is saved.
   */
  function UsurpAsWritten(rs: Option<AppInfo>, caller: string, now: int): UsurpStep {
    var (first, rs1) := Take(rs);
    match first
    case None => Panicked
    case Some(app) =>
      var _ := app.(currentServer := caller);
      var (second, rs2) := Take(rs1);
      match second
      case None => Panicked
      case Some(app2) =>
        var _ := app2.(gmtModified := now);
        match rs2
        case None => Panicked
        case Some(saved) => Saved(saved)
  }

  /** As written, the usurpation step never reaches the save. */
  lemma UsurpAsWrittenNeverSaves(rs: Option<AppInfo>, caller: string, now: int)
    ensures UsurpAsWritten(rs, caller, now) == Panicked
  {
  }

  // ---------------------------------------------------------------------
  // The election loop

  /** Where one iteration of the election loop leaves things. */
  datatype Step = Step(
    done: Option<Result<string>>,
    apps: map<AppId, AppInfo>,
    locks: map<string, LockRecord>,
    trace: seq<Action>)

  /**
   * One iteration of the election loop. `done` is the value the loop returns
   * in this iteration, if it returns. The lock is advisory: whether or not
   * it was saved, the iteration goes on to re-fetch and, failing that, to
   * usurp. After a usurpation the iteration does not return.
   */
  function RoundStep(caller: string, appId: AppId, r: Round,
                     apps: map<AppId, AppInfo>, locks: map<string, LockRecord>): Step
  {
    if !r.fetchOk then Step(Some(Err(WorkerStorageError)), apps, locks, [Fetch(appId)])
    else if appId !in apps then
      Step(Some(Err(WorkerNotRegistered(DecimalString(appId)))), apps, locks, [Fetch(appId)])
    else
      var origin := apps[appId].currentServer;
      if IsActive(origin, [], r.ownerReply) then
        Step(Some(Ok(origin)), apps, locks, [Fetch(appId), Ping(origin)])
      else
        var lock := ElectionLock(appId, caller);
        var locks1 := SaveLockRecord(locks, lock, r.lockSaved);
        var before := [Fetch(appId), Ping(origin), SaveLock(lock)]
                      + (if r.lockSaved then [] else [Sleep(LOCK_BACKOFF_MILLIS)]) + [Fetch(appId)];
        if !r.refetchOk then Step(Some(Err(WorkerStorageError)), apps, locks1, before)
        else
          var cur := apps[appId].currentServer;
          if IsActive(cur, [], r.refetchReply) then
            Step(Some(Ok(cur)), apps, locks1, before + [Ping(cur)])
          else
            var usurped := Usurp(apps[appId], caller, r.now);
            var apps1 := if r.usurpSaved then apps[appId := usurped] else apps;
            Step(None, apps1, locks1, before + [Ping(cur), SaveApp(usurped)])
  }

  /** The election loop from the current iteration on, one `Round` of answers per remaining iteration. */
  function LookupRounds(
    self: string, caller: string, appId: AppId, rounds: seq<Round>,
    apps: map<AppId, AppInfo>, locks: map<string, LockRecord>): Outcome
    decreases |rounds|
  {
    if rounds == [] then Outcome(Err(LookupFail(self)), apps, locks, [])
    else
      var step := RoundStep(caller, appId, rounds[0], apps, locks);
      match step.done
      case Some(result) => Outcome(result, step.apps, step.locks, step.trace)
      case None =>
        var rest := LookupRounds(self, caller, appId, rounds[1..], step.apps, step.locks);
        rest.(trace := step.trace + rest.trace)
  }

  /**
   * `lookup` called by server `self` on behalf of `caller`: the fast path
   * when the caller is this server, otherwise `RETRY_TIMES` iterations of
   * the election loop.
   */
  function LookupSpec(
    self: string, caller: string, appId: AppId, rounds: seq<Round>,
    apps: map<AppId, AppInfo>, locks: map<string, LockRecord>): Outcome
    requires |rounds| == RETRY_TIMES
  {
    if self == caller then Outcome(Ok(caller), apps, locks, [])
    else LookupRounds(self, caller, appId, rounds, apps, locks)
  }

  /** The election loop from iteration `i` on is iteration `i` followed by the rest of the loop. */
  lemma LookupRoundsUnfold(
    self: string, caller: string, appId: AppId, rounds: seq<Round>, i: nat,
    apps: map<AppId, AppInfo>, locks: map<string, LockRecord>)
    requires i < |rounds|
    ensures var step := RoundStep(caller, appId, rounds[i], apps, locks);
      var whole := LookupRounds(self, caller, appId, rounds[i..], apps, locks);
      var rest := LookupRounds(self, caller, appId, rounds[i + 1..], step.apps, step.locks);
      && (step.done.Some? ==> whole == Outcome(step.done.value, step.apps, step.locks, step.trace))
      && (step.done.None? ==> whole == rest.(trace := step.trace + rest.trace))
  {
    assert rounds[i..][0] == rounds[i] && rounds[i..][1..] == rounds[i + 1..];
  }

  /**
   * The loop invariant of `lookup`: what is left of the loop, run from the
   * current store, completes the whole loop's outcome.
   */
  ghost predicate Resumes(
    whole: Outcome, self: string, caller: string, appId: AppId, rest: seq<Round>,
    apps: map<AppId, AppInfo>, locks: map<string, LockRecord>, start: seq<Action>, now: seq<Action>)
  {
    var o := LookupRounds(self, caller, appId, rest, apps, locks);
    && whole.result == o.result && whole.apps == o.apps && whole.locks == o.locks
    && start + whole.trace == now + o.trace
  }

  /** One iteration of the loop keeps the invariant, or ends the loop with the whole outcome. */
  lemma LookupLoopStep(
    whole: Outcome, self: string, caller: string, appId: AppId, rounds: seq<Round>, i: nat,
    apps: map<AppId, AppInfo>, locks: map<string, LockRecord>, start: seq<Action>, now: seq<Action>,
    done: Option<Result<string>>, apps1: map<AppId, AppInfo>, locks1: map<string, LockRecord>, now1: seq<Action>)
    requires i < |rounds|
    requires Resumes(whole, self, caller, appId, rounds[i..], apps, locks, start, now)
    requires var step := RoundStep(caller, appId, rounds[i], apps, locks);
      done == step.done && apps1 == step.apps && locks1 == step.locks && now1 == now + step.trace
    ensures done.Some? ==>
      whole.result == done.value && whole.apps == apps1 && whole.locks == locks1 && start + whole.trace == now1
    ensures done.None? ==> Resumes(whole, self, caller, appId, rounds[i + 1..], apps1, locks1, start, now1)
  {
    LookupRoundsUnfold(self, caller, appId, rounds, i, apps, locks);
    var step := RoundStep(caller, appId, rounds[i], apps, locks);
    if done.None? {
      var rest := LookupRounds(self, caller, appId, rounds[i + 1..], apps1, locks1);
      ConcatAssoc(now, step.trace, rest.trace);
    }
  }

  lemma ConcatAssoc<T>(a: seq<T>, b: seq<T>, c: seq<T>)
    ensures a + (b + c) == (a + b) + c
  {
  }

  /** Number of lock attempts in a trace: one per iteration that got that far. */
  function LockAttempts(trace: seq<Action>): nat {
    if |trace| == 0 then 0
    else (if trace[0].SaveLock? then 1 else 0) + LockAttempts(trace[1..])
  }

  lemma {:induction false} LockAttemptsAppend(a: seq<Action>, b: seq<Action>)
    ensures LockAttempts(a + b) == LockAttempts(a) + LockAttempts(b)
  {
    if |a| == 0 {
      assert a + b == b;
    } else {
      assert (a + b)[0] == a[0];
      assert (a + b)[1..] == a[1..] + b;
      LockAttemptsAppend(a[1..], b);
    }
  }

  // ---------------------------------------------------------------------
  // Properties of lookup

  /** The caller is this server: it is returned at once, with no store or network access. */
  lemma LookupFastPath(self: string, appId: AppId, rounds: seq<Round>,
                       apps: map<AppId, AppInfo>, locks: map<string, LockRecord>)
    requires |rounds| == RETRY_TIMES
    ensures var o := LookupSpec(self, self, appId, rounds, apps, locks);
      o.result == Ok(self) && o.trace == [] && o.apps == apps && o.locks == locks
  {
  }

  /** Once the record is read, an owner that answers its ping is returned unchanged, with no lock and no save. */
  lemma LookupActiveOwner(self: string, caller: string, appId: AppId, rounds: seq<Round>,
                          apps: map<AppId, AppInfo>, locks: map<string, LockRecord>)
    requires |rounds| == RETRY_TIMES && self != caller
    requires rounds[0].fetchOk && appId in apps && rounds[0].ownerReply == PING_OK
    ensures var o := LookupSpec(self, caller, appId, rounds, apps, locks);
      && o.result == Ok(apps[appId].currentServer)
      && o.apps == apps && o.locks == locks
      && o.trace == [Fetch(appId), Ping(apps[appId].currentServer)]
  {
  }

  /**
   * An owner that failed its ping is contended for: the lock is attempted, a
   * failed lock only adds the back-off, and the record is fetched again; if
   * its server now answers, that server is returned without a usurpation.
   */
  lemma LookupRecheckAfterLock(self: string, caller: string, appId: AppId, rounds: seq<Round>,
                               apps: map<AppId, AppInfo>, locks: map<string, LockRecord>)
    requires |rounds| == RETRY_TIMES && self != caller
    requires rounds[0].fetchOk && appId in apps && rounds[0].ownerReply != PING_OK
    requires rounds[0].refetchOk && rounds[0].refetchReply == PING_OK
    ensures var o := LookupSpec(self, caller, appId, rounds, apps, locks);
      var owner := apps[appId].currentServer;
      var lock := LockRecord(DecimalString(appId), LOCK_TTL_MILLIS, caller);
      && o.result == Ok(owner)
      && o.apps == apps
      && o.locks == (if rounds[0].lockSaved then locks[lock.lockedResource := lock] else locks)
      && o.trace == [Fetch(appId), Ping(owner), SaveLock(lock)]
                    + (if rounds[0].lockSaved then [] else [Sleep(LOCK_BACKOFF_MILLIS)])
                    + [Fetch(appId), Ping(owner)]
  {
  }

  /**
   * A failed lock does not stop the takeover: when neither ping of the old
   * owner answers, the caller is written as the owner whether or not its
   * lock was saved, and a caller that then answers its own ping is returned.
   */
  lemma LockFailureDoesNotPreventUsurpation(self: string, caller: string, appId: AppId, rounds: seq<Round>,
                                            apps: map<AppId, AppInfo>, locks: map<string, LockRecord>)
    requires |rounds| == RETRY_TIMES && self != caller && appId in apps
    requires rounds[0].fetchOk && !rounds[0].lockSaved && rounds[0].refetchOk && rounds[0].usurpSaved
    requires rounds[0].ownerReply != PING_OK && rounds[0].refetchReply != PING_OK
    requires rounds[1].fetchOk && rounds[1].ownerReply == PING_OK
    ensures var o := LookupSpec(self, caller, appId, rounds, apps, locks);
      && o.result == Ok(caller)
      && o.apps == apps[appId := Usurp(apps[appId], caller, rounds[0].now)]
      && o.locks == locks
  {
    assert rounds[0..] == rounds;
    LookupRoundsUnfold(self, caller, appId, rounds, 0, apps, locks);
    var step := RoundStep(caller, appId, rounds[0], apps, locks);
    assert step.done == None && step.locks == locks;
    LookupRoundsUnfold(self, caller, appId, rounds, 1, step.apps, step.locks);
  }

  /** What one iteration can do to the store, and how far it gets. */
  lemma RoundStepEffects(caller: string, appId: AppId, r: Round,
                         apps: map<AppId, AppInfo>, locks: map<string, LockRecord>)
    ensures var step := RoundStep(caller, appId, r, apps, locks);
      && step.apps.Keys == apps.Keys
      && (forall k :: k in apps && k != appId ==> step.apps[k] == apps[k])
      && (appId in apps ==>
            step.apps[appId] == apps[appId] || step.apps[appId] == Usurp(apps[appId], caller, r.now))
      && (step.done.None? ==> r.fetchOk && appId in apps && r.refetchOk)
      && (step.done.None? && r.usurpSaved ==> step.apps[appId].currentServer == caller)
      && (step.done.None? && !r.usurpSaved ==> step.apps == apps)
      && (step.done == Some(Err(WorkerNotRegistered(DecimalString(appId)))) <==> r.fetchOk && appId !in apps)
      && (step.done.Some? && step.done.value.Ok? ==>
            appId in apps && step.apps[appId] == apps[appId] && step.done.value.value == apps[appId].currentServer)
      && (step.done.Some? && step.done.value.Err? ==>
            step.done.value.error.WorkerStorageError? || step.done.value.error.WorkerNotRegistered?)
      && (step.done.Some? && step.done.value.Err? && step.done.value.error.WorkerNotRegistered? ==>
            step.trace == [Fetch(appId)])
  {
    if r.fetchOk && appId in apps && !IsActive(apps[appId].currentServer, [], r.ownerReply) {
      if r.refetchOk && !IsActive(apps[appId].currentServer, [], r.refetchReply) {
        var usurped := Usurp(apps[appId], caller, r.now);
        assert r.usurpSaved ==> RoundStep(caller, appId, r, apps, locks).apps == apps[appId := usurped];
      }
    }
  }

  /** An iteration attempts the lock at most once, and exactly once when the loop goes on. */
  lemma RoundStepLockAttempts(caller: string, appId: AppId, r: Round,
                              apps: map<AppId, AppInfo>, locks: map<string, LockRecord>)
    ensures var step := RoundStep(caller, appId, r, apps, locks);
      && LockAttempts(step.trace) <= 1
      && (step.done.None? ==> LockAttempts(step.trace) == 1)
  {
    if r.fetchOk && appId in apps && !IsActive(apps[appId].currentServer, [], r.ownerReply) {
      var origin := apps[appId].currentServer;
      var lock := ElectionLock(appId, caller);
      var head := [Fetch(appId), Ping(origin), SaveLock(lock)];
      var sleep: seq<Action> := if r.lockSaved then [] else [Sleep(LOCK_BACKOFF_MILLIS)];
      var before := head + sleep + [Fetch(appId)];
      assert head[1..] == [Ping(origin), SaveLock(lock)];
      assert [Ping(origin), SaveLock(lock)][1..] == [SaveLock(lock)];
      assert [SaveLock(lock)][1..] == [];
      assert LockAttempts([SaveLock(lock)]) == 1;
      assert LockAttempts([Ping(origin), SaveLock(lock)]) == 1;
      assert LockAttempts(head) == 1;
      assert LockAttempts(sleep) == 0 by {
        if !r.lockSaved {
          assert sleep[1..] == [];
        }
      }
      assert [Fetch(appId)][1..] == [];
      var cur := apps[appId].currentServer;
      var usurped := Usurp(apps[appId], caller, r.now);
      assert [Ping(cur)][1..] == [];
      assert [Ping(cur), SaveApp(usurped)][1..] == [SaveApp(usurped)];
      assert [SaveApp(usurped)][1..] == [];
      assert LockAttempts([Ping(cur), SaveApp(usurped)]) == 0;
      LockAttemptsAppend(head, sleep);
      LockAttemptsAppend(head + sleep, [Fetch(appId)]);
      LockAttemptsAppend(before, [Ping(cur)]);
      LockAttemptsAppend(before, [Ping(cur), SaveApp(usurped)]);
    }
  }

  /**
   * The election only ever touches the record of `appId`, and only by
   * making the caller its owner: no record appears or disappears, and the
   * name and id of the contested record never change.
   */
  lemma {:induction false} LookupWritesOnlyUsurpation(
    self: string, caller: string, appId: AppId, rounds: seq<Round>,
    apps: map<AppId, AppInfo>, locks: map<string, LockRecord>)
    ensures var o := LookupRounds(self, caller, appId, rounds, apps, locks);
      && o.apps.Keys == apps.Keys
      && (forall k :: k in apps && k != appId ==> o.apps[k] == apps[k])
      && (appId in apps ==>
            o.apps[appId] == apps[appId] || o.apps[appId] == Usurp(apps[appId], caller, o.apps[appId].gmtModified))
    decreases |rounds|
  {
    if rounds != [] {
      var step := RoundStep(caller, appId, rounds[0], apps, locks);
      RoundStepEffects(caller, appId, rounds[0], apps, locks);
      if step.done.None? {
        LookupWritesOnlyUsurpation(self, caller, appId, rounds[1..], step.apps, step.locks);
      }
    }
  }

  /**
   * Read-after-write: a server that lookup returns is the owner the store
   * records when lookup ends, and it is either the owner recorded at the
   * start or the caller.
   */
  lemma {:induction false} LookupReturnsRecordedOwner(
    self: string, caller: string, appId: AppId, rounds: seq<Round>,
    apps: map<AppId, AppInfo>, locks: map<string, LockRecord>)
    requires LookupRounds(self, caller, appId, rounds, apps, locks).result.Ok?
    ensures var o := LookupRounds(self, caller, appId, rounds, apps, locks);
      && appId in apps && appId in o.apps
      && o.apps[appId].currentServer == o.result.value
      && (o.result.value == apps[appId].currentServer || o.result.value == caller)
    decreases |rounds|
  {
    var step := RoundStep(caller, appId, rounds[0], apps, locks);
    RoundStepEffects(caller, appId, rounds[0], apps, locks);
    if step.done.None? {
      LookupReturnsRecordedOwner(self, caller, appId, rounds[1..], step.apps, step.locks);
    }
  }

  /**
   * `WorkerNotRegistered`, carrying the app id in decimal, is returned exactly
   * when the first fetch reaches the store and finds no record: a record
   * present at the start is never reported missing later.
   */
  lemma {:induction false} LookupNotRegisteredIffAbsent(
    self: string, caller: string, appId: AppId, rounds: seq<Round>,
    apps: map<AppId, AppInfo>, locks: map<string, LockRecord>)
    ensures var o := LookupRounds(self, caller, appId, rounds, apps, locks);
      (o.result.Err? && o.result.error.WorkerNotRegistered?)
        <==> (rounds != [] && rounds[0].fetchOk && appId !in apps)
    ensures var o := LookupRounds(self, caller, appId, rounds, apps, locks);
      o.result.Err? && o.result.error.WorkerNotRegistered? ==>
        o.result.error == WorkerNotRegistered(DecimalString(appId)) && o.trace == [Fetch(appId)]
    decreases |rounds|
  {
    if rounds != [] {
      var step := RoundStep(caller, appId, rounds[0], apps, locks);
      RoundStepEffects(caller, appId, rounds[0], apps, locks);
      if step.done.None? {
        LookupNotRegisteredIffAbsent(self, caller, appId, rounds[1..], step.apps, step.locks);
      }
    }
  }

  /**
   * The loop is bounded: there is at most one lock attempt per remaining
   * iteration, and `LookupFail`, which names this server, comes only after
   * every iteration got as far as a lock attempt.
   */
  lemma {:induction false} LookupBounded(
    self: string, caller: string, appId: AppId, rounds: seq<Round>,
    apps: map<AppId, AppInfo>, locks: map<string, LockRecord>)
    ensures var o := LookupRounds(self, caller, appId, rounds, apps, locks);
      LockAttempts(o.trace) <= |rounds|
    ensures var o := LookupRounds(self, caller, appId, rounds, apps, locks);
      o.result.Err? && o.result.error.LookupFail? ==>
        o.result.error == LookupFail(self) && LockAttempts(o.trace) == |rounds|
    decreases |rounds|
  {
    if rounds != [] {
      var step := RoundStep(caller, appId, rounds[0], apps, locks);
      RoundStepEffects(caller, appId, rounds[0], apps, locks);
      RoundStepLockAttempts(caller, appId, rounds[0], apps, locks);
      if step.done.None? {
        var rest := LookupRounds(self, caller, appId, rounds[1..], step.apps, step.locks);
        LookupBounded(self, caller, appId, rounds[1..], step.apps, step.locks);
        LockAttemptsAppend(step.trace, rest.trace);
      }
    }
  }

  /**
   * When the store always answers but no ping ever does, every iteration
   * ends in a usurpation and lookup fails with `LookupFail` naming this
   * server, although the store may now name the caller as the owner.
   */
  lemma {:induction false} LookupAllPingsFail(
    self: string, caller: string, appId: AppId, rounds: seq<Round>,
    apps: map<AppId, AppInfo>, locks: map<string, LockRecord>)
    requires appId in apps
    requires forall i :: 0 <= i < |rounds| ==>
      rounds[i].fetchOk && rounds[i].refetchOk && rounds[i].ownerReply != PING_OK && rounds[i].refetchReply != PING_OK
    ensures var o := LookupRounds(self, caller, appId, rounds, apps, locks);
      && o.result == Err(LookupFail(self))
      && LockAttempts(o.trace) == |rounds|
      && appId in o.apps
      && ((exists i :: 0 <= i < |rounds| && rounds[i].usurpSaved) ==> o.apps[appId].currentServer == caller)
    decreases |rounds|
  {
    LookupBounded(self, caller, appId, rounds, apps, locks);
    if rounds != [] {
      var step := RoundStep(caller, appId, rounds[0], apps, locks);
      RoundStepEffects(caller, appId, rounds[0], apps, locks);
      assert step.done.None?;
      assert forall i :: 0 <= i < |rounds[1..]| ==> rounds[1..][i] == rounds[i + 1];
      LookupAllPingsFail(self, caller, appId, rounds[1..], step.apps, step.locks);
      LookupWritesOnlyUsurpation(self, caller, appId, rounds[1..], step.apps, step.locks);
      if exists i :: 0 <= i < |rounds| && rounds[i].usurpSaved {
        var i :| 0 <= i < |rounds| && rounds[i].usurpSaved;
        if i > 0 {
          assert rounds[1..][i - 1].usurpSaved;
        }
      }
    }
  }

  // ---------------------------------------------------------------------
  // The worker registry

  /** The registry pruned to the workers whose key is one of `appIds`. */
  function Retain(workers: map<string, Worker>, appIds: seq<string>): (r: map<string, Worker>)
    ensures r.Keys == workers.Keys * set id | id in appIds
    ensures forall k :: k in r ==> r[k] == workers[k]
  {
    map k | k in workers && k in appIds :: workers[k]
  }

  /**
   * `clean_useless_worker` as written: the filter it builds is lazy and never
   * consumed, so the registry is left as it was.
   */
  function CleanAsWritten(workers: map<string, Worker>, appIds: seq<string>): map<string, Worker> {
    workers
  }

  /** As written, a worker whose key is not an owned id survives the clean-up. */
  lemma CleanAsWrittenKeepsUselessWorker()
    ensures var ws := map["10.0.0.7:9000" := Worker("10.0.0.7:9000")];
      "10.0.0.7:9000" in CleanAsWritten(ws, ["1"]) && "10.0.0.7:9000" !in Retain(ws, ["1"])
  {
  }

  // ---------------------------------------------------------------------
  // The scheduling tick

  datatype Phase = Cron | Workflow | Frequent

  /** A call into one dispatcher phase with the owned app ids. */
  datatype Dispatch = Dispatch(phase: Phase, appIds: seq<string>)

  /**
   * What the store answers to the owned-apps query: an error, no list at
   * all (`None`), or a list, which may be empty.
   */
  datatype OwnedApps = QueryFailed | NoList | Apps(list: seq<AppInfo>)

  /** The owned app ids, each rendered as text. */
  function AppIds(list: seq<AppInfo>): seq<string> {
    seq(|list|, i requires 0 <= i < |list| => DecimalString(list[i].id))
  }

  /** One tick: its result, the ids the registry is pruned to (if it is), and the phases called. */
  datatype Tick = Tick(result: Result<()>, prunedTo: Option<seq<string>>, dispatched: seq<Dispatch>)

  /** The phases of a tick, in order, each aborting the rest when it fails. */
  function TickSpec(query: OwnedApps, fails: Phase -> Option<SchedError>): Tick {
    match query
    case QueryFailed => Tick(Err(WorkerStorageError), None, [])
    case NoList => Tick(Ok(()), None, [])
    case Apps(list) =>
      var ids := AppIds(list);
      if fails(Cron).Some? then
        Tick(Err(SchedulerFailed(fails(Cron).value)), Some(ids), [Dispatch(Cron, ids)])
      else if fails(Workflow).Some? then
        Tick(Err(SchedulerFailed(fails(Workflow).value)), Some(ids), [Dispatch(Cron, ids), Dispatch(Workflow, ids)])
      else if fails(Frequent).Some? then
        Tick(Err(SchedulerFailed(fails(Frequent).value)), Some(ids),
             [Dispatch(Cron, ids), Dispatch(Workflow, ids), Dispatch(Frequent, ids)])
      else
        Tick(Ok(()), Some(ids), [Dispatch(Cron, ids), Dispatch(Workflow, ids), Dispatch(Frequent, ids)])
  }

  const PHASE_ORDER: seq<Phase> := [Cron, Workflow, Frequent]

  /**
   * With a `None` answer, or a failed query, no dispatcher is called and the
   * registry is left alone; otherwise, even for an empty list, the registry
   * is pruned first and the phases called are a prefix of cron, workflow,
   * frequent, all with the
   * same ids, every one before the last having succeeded; the tick fails
   * exactly when the last phase called failed, with that phase's error.
   */
  lemma TickPhasesInOrder(query: OwnedApps, fails: Phase -> Option<SchedError>)
    ensures var t := TickSpec(query, fails);
      && (!query.Apps? ==> t.dispatched == [] && t.prunedTo == None)
      && (query.QueryFailed? ==> t.result == Err(WorkerStorageError))
      && (query.NoList? ==> t.result == Ok(()))
    ensures var t := TickSpec(query, fails);
      query.Apps? ==>
        && t.prunedTo == Some(AppIds(query.list))
        && 1 <= |t.dispatched| <= 3
        && (forall i :: 0 <= i < |t.dispatched| ==>
              t.dispatched[i] == Dispatch(PHASE_ORDER[i], AppIds(query.list)))
        && (forall i :: 0 <= i < |t.dispatched| - 1 ==> fails(PHASE_ORDER[i]).None?)
        && (t.result.Err? <==> fails(t.dispatched[|t.dispatched| - 1].phase).Some?)
        && (t.result.Err? ==>
              t.result.error == SchedulerFailed(fails(t.dispatched[|t.dispatched| - 1].phase).value))
        && (t.result.Ok? ==> |t.dispatched| == 3)
  {
  }

  // ---------------------------------------------------------------------
  // The stateful parts: store, dispatchers, manager

  /** The persistent store the manager shares with the other servers. */
  class Store {
    var apps: map<AppId, AppInfo>
    var locks: map<string, LockRecord>

    constructor (apps: map<AppId, AppInfo>)
      ensures this.apps == apps && this.locks == map[]
    {
      this.apps := apps;
      this.locks := map[];
    }
  }

  /** The three dispatchers, seen only through the calls made to them. */
  class Scheduler {
    var dispatched: seq<Dispatch>

    constructor ()
      ensures dispatched == []
    {
      dispatched := [];
    }

    /** Calls one phase; `outcome` is what the dispatcher answers. */
    method Schedule(phase: Phase, appIds: seq<string>, outcome: Option<SchedError>) returns (r: Result<()>)
      modifies this
      ensures dispatched == old(dispatched) + [Dispatch(phase, appIds)]
      ensures r == if outcome.Some? then Err(SchedulerFailed(outcome.value)) else Ok(())
    {
      dispatched := dispatched + [Dispatch(phase, appIds)];
      r := if outcome.Some? then Err(SchedulerFailed(outcome.value)) else Ok(());
    }
  }

  class WorkerManager {
    const id: int
    const address: string
    const storage: Store
    const scheduler: Scheduler
    var workers: map<string, Worker>
    /** The external actions performed so far, in order. */
    ghost var trace: seq<Action>

    /** `WorkerManagerBuilder::build`: the address is left empty and no worker is connected. */
    constructor (id: int, storage: Store, scheduler: Scheduler)
      ensures this.id == id && this.storage == storage && this.scheduler == scheduler
      ensures address == "" && workers == map[] && trace == []
    {
      this.id := id;
      this.address := "";
      this.storage := storage;
      this.scheduler := scheduler;
      this.workers := map[];
      this.trace := [];
    }

    /** `connect`: registers (or replaces) the worker at `addr`, keyed by its address. */
    method Connect(addr: string) returns (r: Result<()>)
      modifies this`workers
      ensures r == Ok(())
      ensures addr in workers && workers[addr] == Worker(addr)
      ensures forall k :: k != addr ==> (k in workers <==> k in old(workers))
      ensures forall k :: k != addr && k in old(workers) ==> workers[k] == old(workers)[k]
    {
      workers := workers[addr := Worker(addr)];
      r := Ok(());
    }

    /**
     * `validate_worker`: succeeds exactly when the fetch by name reaches the
     * store and finds the app; otherwise reports the name as not registered.
     */
    method ValidateWorker(appName: string, fetchOk: bool) returns (r: Result<()>)
      ensures r.Ok? <==> fetchOk && HasAppNamed(storage.apps, appName)
      ensures r.Err? ==> r.error == WorkerNotRegistered(appName)
    {
      if fetchOk && exists id | id in storage.apps :: storage.apps[id].appName == appName {
        return Ok(());
      }
      r := Err(WorkerNotRegistered(appName));
    }

    /** `lock`: contends for an app by saving a lock record; acquired exactly when the save succeeds. */
    method Lock(lock: LockRecord, saveOk: bool) returns (acquired: bool)
      modifies storage`locks, this`trace
      ensures acquired == saveOk
      ensures storage.locks == SaveLockRecord(old(storage.locks), lock, saveOk)
      ensures trace == old(trace) + [SaveLock(lock)]
    {
      trace := trace + [SaveLock(lock)];
      if saveOk {
        storage.locks := storage.locks[lock.lockedResource := lock];
      }
      acquired := saveOk;
    }

    /**
     * Iteration `i` of the election loop in `lookup`; `done` is what the loop
     * returns in this iteration, if it returns. The postcondition says how
     * what is left of the loop before the iteration relates to what is left
     * after it.
     */
    method ElectionRound(currentServer: string, appId: AppId, rounds: seq<Round>, i: nat, cache: seq<string>)
      returns (done: Option<Result<string>>)
      requires i < |rounds| && cache == []
      modifies storage, this`trace
      ensures var step := RoundStep(currentServer, appId, rounds[i], old(storage.apps), old(storage.locks));
        && done == step.done
        && storage.apps == step.apps && storage.locks == step.locks
        && trace == old(trace) + step.trace
    {
      var round := rounds[i];
      ghost var trace0 := trace;
      trace := trace + [Fetch(appId)];
      if !round.fetchOk {
        return Some(Err(WorkerStorageError));
      }
      if appId !in storage.apps {
        return Some(Err(WorkerNotRegistered(DecimalString(appId))));
      }
      var originServer := storage.apps[appId].currentServer;
      trace := trace + [Ping(originServer)];
      if IsActive(originServer, cache, round.ownerReply) {
        return Some(Ok(originServer));
      }

      // The owner does not answer: contend for the app.
      var lock := ElectionLock(appId, currentServer);
      var locked := Lock(lock, round.lockSaved);
      ghost var head := [Fetch(appId), Ping(originServer), SaveLock(lock)];
      assert trace == trace0 + head;
      ghost var backoff: seq<Action> := [];
      if !locked {
        trace := trace + [Sleep(LOCK_BACKOFF_MILLIS)];
        backoff := [Sleep(LOCK_BACKOFF_MILLIS)];
      }

      // Another server may have taken over meanwhile: fetch again.
      trace := trace + [Fetch(appId)];
      ghost var before := head + backoff + [Fetch(appId)];
      assert trace == trace0 + before;
      if !round.refetchOk {
        return Some(Err(WorkerStorageError));
      }
      var cur := storage.apps[appId].currentServer;
      trace := trace + [Ping(cur)];
      ConcatAssoc(trace0, before, [Ping(cur)]);
      if IsActive(cur, cache, round.refetchReply) {
        return Some(Ok(cur));
      }

      // Usurpation: the caller becomes the owner, and the loop goes on.
      var usurped := Usurp(storage.apps[appId], currentServer, round.now);
      trace := trace + [SaveApp(usurped)];
      ConcatAssoc(trace0, before, [Ping(cur), SaveApp(usurped)]);
      if round.usurpSaved {
        storage.apps := storage.apps[appId := usurped];
      }
      done := None;
    }

    /**
     * `lookup`: which server owns the scheduling rights of `appId`, with
     * `rounds[i]` the world's answers during iteration `i`.
     */
    method Lookup(currentServer: string, appId: AppId, rounds: seq<Round>) returns (r: Result<string>)
      requires |rounds| == RETRY_TIMES
      modifies storage, this`trace
      ensures var o := LookupSpec(address, currentServer, appId, rounds, old(storage.apps), old(storage.locks));
        && r == o.result
        && storage.apps == o.apps && storage.locks == o.locks
        && trace == old(trace) + o.trace
    {
      // The cache of servers known dead is allocated but never written.
      var cache: seq<string> := [];
      if address == currentServer {
        return Ok(currentServer);
      }
      ghost var whole := LookupRounds(address, currentServer, appId, rounds, storage.apps, storage.locks);
      for i := 0 to RETRY_TIMES
        invariant Resumes(whole, address, currentServer, appId, rounds[i..], storage.apps, storage.locks,
                          old(trace), trace)
      {
        ghost var apps0, locks0, trace0 := storage.apps, storage.locks, trace;
        var done := ElectionRound(currentServer, appId, rounds, i, cache);
        LookupLoopStep(whole, address, currentServer, appId, rounds, i, apps0, locks0, old(trace), trace0,
                       done, storage.apps, storage.locks, trace);
        if done.Some? {
          return done.value;
        }
      }
      r := Err(LookupFail(address));
    }

    /** `clean_useless_worker`, as its documentation intends: keep only the workers of owned apps. */
    method CleanUselessWorker(appIds: seq<string>)
      modifies this`workers
      ensures workers == Retain(old(workers), appIds)
    {
      workers := map k | k in workers && k in appIds :: workers[k];
    }

    /**
     * `sched`: one scheduling tick. `query` is the store's answer to the
     * owned-apps query and `fails` what each dispatcher phase answers.
     */
    method Sched(query: OwnedApps, fails: Phase -> Option<SchedError>) returns (r: Result<()>)
      modifies this`workers, scheduler
      ensures var t := TickSpec(query, fails);
        && r == t.result
        && scheduler.dispatched == old(scheduler.dispatched) + t.dispatched
        && workers == (if t.prunedTo.Some? then Retain(old(workers), t.prunedTo.value) else old(workers))
    {
      if query.QueryFailed? {
        return Err(WorkerStorageError);
      }
      if query.NoList? {
        return Ok(());
      }
      var ids := AppIds(query.list);
      CleanUselessWorker(ids);
      r := scheduler.Schedule(Cron, ids, fails(Cron));
      if r.Err? {
        return;
      }
      r := scheduler.Schedule(Workflow, ids, fails(Workflow));
      if r.Err? {
        return;
      }
      r := scheduler.Schedule(Frequent, ids, fails(Frequent));
    }

    /** `manual_sched`: runs one tick and reports success whatever the tick's result. */
    method ManualSched(query: OwnedApps, fails: Phase -> Option<SchedError>) returns (r: Result<()>)
      modifies this`workers, scheduler
      ensures r == Ok(())
      ensures var t := TickSpec(query, fails);
        && scheduler.dispatched == old(scheduler.dispatched) + t.dispatched
        && workers == (if t.prunedTo.Some? then Retain(old(workers), t.prunedTo.value) else old(workers))
    {
      var _ := Sched(query, fails);
      r := Ok(());
    }
  }
}
