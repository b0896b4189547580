/** server/src/cron/cleanUpExpiredTokens.ts: the periodic
    `updateMany({}, { $pull: { refreshTokenBlacklist: { expiresAt: { $lte: now } } } })`
    over every user. */
module Cron {
  import opened Types
  import opened Blacklist
  import opened Store

  /** One user's document after the `$pull`. */
  function Pulled(u: User, nowMs: int): User {
    u.(blacklist := Pull(u.blacklist, nowMs))
  }

  /** The user table after the `$pull`, filter `{}`: every document. */
  function PullAll(users: seq<User>, nowMs: int): (r: seq<User>)
    ensures |r| == |users|
  {
    if users == [] then [] else [Pulled(users[0], nowMs)] + PullAll(users[1..], nowMs)
  }

  /** The cron job. Persistence errors are caught and logged, so the job
      never fails; the model has no failing store. */
  method CleanUpExpiredTokens(db: Db, nowMs: int)
    modifies db
    ensures db.users == PullAll(old(db.users), nowMs)
    ensures db.todos == old(db.todos)
  {
    ghost var before := db.users;
    var i := 0;
    while i < |db.users|
      invariant 0 <= i <= |db.users| == |before|
      invariant db.users[..i] == PullAll(before[..i], nowMs)
      invariant db.users[i..] == before[i..]
      invariant db.todos == old(db.todos)
    {
      PullAllAppend(before[..i], [before[i]], nowMs);
      assert before[..i + 1] == before[..i] + [before[i]];
      db.users := db.users[i := Pulled(db.users[i], nowMs)];
      i := i + 1;
    }
    assert before[..i] == before;
  }

  lemma {:induction false} PullAllAppend(a: seq<User>, b: seq<User>, nowMs: int)
    ensures PullAll(a + b, nowMs) == PullAll(a, nowMs) + PullAll(b, nowMs)
  {
    if a == [] {
      assert a + b == b;
    } else {
      assert (a + b)[1..] == a[1..] + b;
      PullAllAppend(a[1..], b, nowMs);
    }
  }

  /** Every user is swept, each with the inline sweep's rule, and nothing
      but the blacklist changes. */
  lemma {:induction false} CronSweepsEveryUser(users: seq<User>, nowMs: int)
    ensures forall i :: 0 <= i < |users| ==>
              PullAll(users, nowMs)[i].blacklist == Sweep(users[i].blacklist, nowMs)
              && PullAll(users, nowMs)[i] == users[i].(blacklist := PullAll(users, nowMs)[i].blacklist)
  {
    if users != [] {
      CronSweepsEveryUser(users[1..], nowMs);
      PullIsSweep(users[0].blacklist, nowMs);
      var r := PullAll(users, nowMs);
      assert r == [Pulled(users[0], nowMs)] + PullAll(users[1..], nowMs);
      forall i | 1 <= i < |users|
        ensures r[i].blacklist == Sweep(users[i].blacklist, nowMs)
      {
        assert r[i] == PullAll(users[1..], nowMs)[i - 1];
        assert users[i] == users[1..][i - 1];
      }
    }
  }

  /** After the job, no user holds an entry with `expiresAt <= now`, and
      every entry with `expiresAt > now` is still there. */
  lemma CronRemovesExactlyExpired(users: seq<User>, nowMs: int, i: nat)
    requires i < |users|
    ensures forall e :: e in PullAll(users, nowMs)[i].blacklist ==> e.expiresAt > nowMs
    ensures forall e :: e in users[i].blacklist && e.expiresAt > nowMs ==> e in PullAll(users, nowMs)[i].blacklist
  {
    CronSweepsEveryUser(users, nowMs);
    SweepPartitions(users[i].blacklist, nowMs);
  }

  /** Running the job twice with the same time is running it once. */
  lemma CronIdempotent(users: seq<User>, nowMs: int)
    ensures PullAll(PullAll(users, nowMs), nowMs) == PullAll(users, nowMs)
  {
    var once := PullAll(users, nowMs);
    var twice := PullAll(once, nowMs);
    CronSweepsEveryUser(users, nowMs);
    CronSweepsEveryUser(once, nowMs);
    forall i | 0 <= i < |users|
      ensures twice[i] == once[i]
    {
      SweepIdempotent(users[i].blacklist, nowMs);
    }
  }

  /** An entry revoked by a request after the job ran at an earlier time
      survives the job: the two orders of job and revocation agree whenever
      the revoked token is still live. */
  lemma CronAndRevokeCommute(bl: seq<BlacklistEntry>, jti: string, expS: int, nowMs: int)
    requires expS * 1000 > nowMs
    ensures Pull(Revoke(bl, jti, expS), nowMs) == Revoke(Pull(bl, nowMs), jti, expS)
  {
    PullIsSweep(Revoke(bl, jti, expS), nowMs);
    PullIsSweep(bl, nowMs);
    SweepAppend(bl, [BlacklistEntry(jti, expS * 1000)], nowMs);
    assert Sweep([BlacklistEntry(jti, expS * 1000)], nowMs) == [BlacklistEntry(jti, expS * 1000)];
  }
}
