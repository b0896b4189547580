/** The refresh-token blacklist each user record holds: the inline sweep the
    refresh and logout handlers run, the `$pull` the cron job runs, the
    membership check, and revocation. Times are milliseconds; token `exp`
    claims are seconds (RFC 7519 section 4.1.4). */
module Blacklist {
  import opened Types

  /** Every entry of `bl` with `expiresAt <= nowMs`. */
  function Expired(bl: seq<BlacklistEntry>, nowMs: int): seq<BlacklistEntry> {
    if bl == [] then []
    else (if bl[0].expiresAt <= nowMs then [bl[0]] else []) + Expired(bl[1..], nowMs)
  }

  /** The inline sweep: `bl.filter(entry => entry.expiresAt.getTime() > Date.now())`. */
  function Sweep(bl: seq<BlacklistEntry>, nowMs: int): (kept: seq<BlacklistEntry>)
    ensures |kept| <= |bl|
    ensures forall i :: 0 <= i < |kept| ==> kept[i].expiresAt > nowMs
  {
    if bl == [] then []
    else (if bl[0].expiresAt > nowMs then [bl[0]] else []) + Sweep(bl[1..], nowMs)
  }

  /** The sweep keeps exactly the unexpired entries, and what it keeps
      together with what it drops is the whole blacklist. */
  lemma {:induction false} SweepPartitions(bl: seq<BlacklistEntry>, nowMs: int)
    ensures forall e :: e in Sweep(bl, nowMs) <==> e in bl && e.expiresAt > nowMs
    ensures multiset(Sweep(bl, nowMs)) + multiset(Expired(bl, nowMs)) == multiset(bl)
  {
    if bl != [] {
      SweepPartitions(bl[1..], nowMs);
      assert bl == [bl[0]] + bl[1..];
    }
  }

  /** The cron job's `$pull: { refreshTokenBlacklist: { expiresAt: { $lte: now } } }`
      on one document: remove every matching element in place. */
  function Pull(bl: seq<BlacklistEntry>, nowMs: int): seq<BlacklistEntry> {
    if bl == [] then []
    else if bl[0].expiresAt <= nowMs then Pull(bl[1..], nowMs)
    else [bl[0]] + Pull(bl[1..], nowMs)
  }

  /** `user.refreshTokenBlacklist.some(entry => entry.jti === jti)` */
  function Contains(bl: seq<BlacklistEntry>, jti: string): (found: bool)
    ensures found <==> exists e :: e in bl && e.jti == jti
  {
    if bl == [] then false
    else
      assert bl[0] in bl;
      assert forall e :: e in bl[1..] ==> e in bl;
      assert forall e :: e in bl ==> e == bl[0] || e in bl[1..];
      bl[0].jti == jti || Contains(bl[1..], jti)
  }

  /** Revocation: push `{jti, expiresAt: new Date(exp * 1000)}`. */
  function Revoke(bl: seq<BlacklistEntry>, jti: string, expS: int): (r: seq<BlacklistEntry>)
    ensures |r| == |bl| + 1 && r[..|bl|] == bl
    ensures r[|bl|].jti == jti && r[|bl|].expiresAt == expS * 1000
  {
    bl + [BlacklistEntry(jti, expS * 1000)]
  }

  /** What the refresh and logout handlers do to a loaded blacklist: the
      inline sweep, then a revocation guarded by
      `if (decodedRefreshToken.jti && decodedRefreshToken.exp)`. */
  function SweepThenRevoke(bl: seq<BlacklistEntry>, jti: string, expS: int, nowMs: int): (r: seq<BlacklistEntry>)
    ensures jti != "" && expS != 0 ==> r == Sweep(bl, nowMs) + [BlacklistEntry(jti, expS * 1000)]
    ensures jti == "" || expS == 0 ==> r == Sweep(bl, nowMs)
  {
    var kept := Sweep(bl, nowMs);
    if jti != "" && expS != 0 then Revoke(kept, jti, expS) else kept
  }

  /** Once revoked, the `jti` is found by the membership check. */
  lemma RevokedIsContained(bl: seq<BlacklistEntry>, jti: string, expS: int, nowMs: int)
    requires jti != "" && expS != 0
    ensures Contains(SweepThenRevoke(bl, jti, expS, nowMs), jti)
  {
    var r := SweepThenRevoke(bl, jti, expS, nowMs);
    assert r[|r| - 1] in r;
  }

  /** The cron `$pull` removes exactly the complement of what the inline
      sweep keeps: both sweepers induce the same partition and order. */
  lemma {:induction false} PullIsSweep(bl: seq<BlacklistEntry>, nowMs: int)
    ensures Pull(bl, nowMs) == Sweep(bl, nowMs)
  {
    if bl != [] {
      PullIsSweep(bl[1..], nowMs);
    }
  }

  /** Sweeping distributes over concatenation, so the sweep keeps the
      surviving entries in their original order. */
  lemma {:induction false} SweepAppend(a: seq<BlacklistEntry>, b: seq<BlacklistEntry>, nowMs: int)
    ensures Sweep(a + b, nowMs) == Sweep(a, nowMs) + Sweep(b, nowMs)
  {
    if a == [] {
      assert a + b == b;
    } else {
      assert (a + b)[1..] == a[1..] + b;
      SweepAppend(a[1..], b, nowMs);
    }
  }

  /** Sweeping twice with the same time is sweeping once. */
  lemma {:induction false} SweepIdempotent(bl: seq<BlacklistEntry>, nowMs: int)
    ensures Sweep(Sweep(bl, nowMs), nowMs) == Sweep(bl, nowMs)
  {
    if bl != [] {
      SweepIdempotent(bl[1..], nowMs);
      if bl[0].expiresAt > nowMs {
        assert Sweep(bl, nowMs) == [bl[0]] + Sweep(bl[1..], nowMs);
        SweepAppend([bl[0]], Sweep(bl[1..], nowMs), nowMs);
        assert [bl[0]][1..] == [];
      } else {
        assert Sweep(bl, nowMs) == Sweep(bl[1..], nowMs);
      }
    }
  }

  /** A later sweep subsumes an earlier one: entries are never resurrected. */
  lemma {:induction false} SweepLater(bl: seq<BlacklistEntry>, earlier: int, later: int)
    requires earlier <= later
    ensures Sweep(Sweep(bl, earlier), later) == Sweep(bl, later)
  {
    if bl != [] {
      SweepLater(bl[1..], earlier, later);
      if bl[0].expiresAt > earlier {
        assert Sweep(bl, earlier) == [bl[0]] + Sweep(bl[1..], earlier);
        SweepAppend([bl[0]], Sweep(bl[1..], earlier), later);
        assert [bl[0]][1..] == [];
      } else {
        assert Sweep(bl, earlier) == Sweep(bl[1..], earlier);
      }
    }
  }

  /** Revoking the same token twice leaves two entries for it: revocation
      does not check membership first. */
  lemma RevokeTwiceDuplicates(bl: seq<BlacklistEntry>, jti: string, expS: int, now1: int, now2: int)
    requires jti != "" && expS != 0 && now1 <= now2 && now2 < expS * 1000
    ensures var once := SweepThenRevoke(bl, jti, expS, now1);
            var twice := SweepThenRevoke(once, jti, expS, now2);
            |twice| >= 2 && twice[|twice| - 1] == twice[|twice| - 2] == BlacklistEntry(jti, expS * 1000)
  {
    var once := SweepThenRevoke(bl, jti, expS, now1);
    var kept := Sweep(bl, now1);
    assert once == kept + [BlacklistEntry(jti, expS * 1000)];
    SweepAppend(kept, [BlacklistEntry(jti, expS * 1000)], now2);
    assert Sweep([BlacklistEntry(jti, expS * 1000)], now2) == [BlacklistEntry(jti, expS * 1000)];
  }
}
