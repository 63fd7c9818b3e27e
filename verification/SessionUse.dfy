/**
  What one use of a session is answered and leaves behind, in every reachable state:
  a request, a refresh, a revocation, told by who asks, from where and when.
 */
module SessionUse {
  import opened Options
  import opened AdminSessions
  import opened SessionRuns

  const TWO_HOURS := 7_200_000

  /** The session is the admin's own, and nobody has revoked it. */
  ghost predicate OwnLive(d: Desk, id: nat, admin: nat) {
    id in d.rows && d.rows[id].admin == admin && d.rows[id].revokedAt == None
  }

  /** A request is accepted exactly on the admin's own live session, from its address, within two hours. */
  lemma TouchAcceptedIff(d: Desk, id: nat, admin: nat, ip: nat, now: int)
    requires Reachable(d) && d.clock <= now
    ensures Touched(d.rows, id, admin, ip, now).1 == Accepted
            <==> OwnLive(d, id, admin) && d.rows[id].ip == ip && now < d.rows[id].createdAt + TWO_HOURS
  {
    ReachableRows(d);
  }

  /** The row was ended now, for this reason, with no hash left, and is otherwise as it was. */
  ghost predicate EndedFor(was: Session, row: Session, reason: RevokeReason, now: int) {
    && row.revokedAt == Some(now) && row.revokedReason == Some(reason)
    && row.refresh == None && row.previous == None && row.refreshExpiresAt == None
    && row.admin == was.admin && row.ip == was.ip && row.createdAt == was.createdAt
    && row.lastSeenAt == was.lastSeenAt && row.expiresAt == was.expiresAt && row.rotations == was.rotations
  }

  /** No row but that of session `id` is any different. */
  ghost predicate OnlyRow(rows: Sessions, after: Sessions, id: nat) {
    after.Keys == rows.Keys && forall i | i in rows && i != id :: after[i] == rows[i]
  }

  /**
    The checks in their order, on any row at all: ended before, too late, idle for more
    than two hours, from another address; the first that fails ends the session for
    its own reason.
   */
  lemma ChecksInOrder(s: Session, ip: nat, now: int)
    ensures var (row, verdict) := Checked(s, ip, now);
            if s.revokedAt.Some? then verdict == NotValid && row == s
            else if s.expiresAt <= now then verdict == Expired && EndedFor(s, row, SessionExpired, now)
            else if now > s.lastSeenAt + TWO_HOURS then verdict == Idle && EndedFor(s, row, TimedOut, now)
            else if ip != s.ip then verdict == WrongAddress && EndedFor(s, row, IpMismatch, now)
            else verdict == Accepted && row == s.(lastSeenAt := now)
  {
  }

  /**
    What a request leaves behind: an accepted one only slides the idle window; one that
    comes too late, or in time from another address, ends the session; any other
    changes nothing.
   */
  lemma TouchLeaves(d: Desk, id: nat, admin: nat, ip: nat, now: int)
    requires Reachable(d) && d.clock <= now
    ensures var (after, verdict) := Touched(d.rows, id, admin, ip, now);
            && OnlyRow(d.rows, after, id)
            && (verdict == Accepted ==> after[id] == d.rows[id].(lastSeenAt := now))
            && (!OwnLive(d, id, admin) ==> after == d.rows && verdict in {SessionNotFound, NotValid})
            && (OwnLive(d, id, admin) && now >= d.rows[id].createdAt + TWO_HOURS ==>
                  verdict == Expired && EndedFor(d.rows[id], after[id], SessionExpired, now))
            && (OwnLive(d, id, admin) && now < d.rows[id].createdAt + TWO_HOURS && d.rows[id].ip != ip ==>
                  verdict == WrongAddress && EndedFor(d.rows[id], after[id], IpMismatch, now))
  {
    ReachableRows(d);
  }

  /** Whoever asks about a session that is not there, or not theirs, is told nothing more than that. */
  lemma StrangerLearnsNothing(rows: Sessions, id: nat, admin: nat, ip: nat, now: int)
    ensures Touched(rows, id, admin, ip, now).1 == SessionNotFound <==> id !in rows || rows[id].admin != admin
  {
  }

  /** A session just signed in is its admin's from that address, for two hours and no longer. */
  lemma SignedInForTwoHours(d: Desk, admin: nat, ip: nat, asker: nat, from: nat, now: int)
    requires d.clock <= now
    ensures var t := Take(d, Event(SignIn(admin, ip), 0));
            Touched(t.rows, d.nextId, asker, from, now).1 == Accepted
            <==> asker == admin && from == ip && now < d.clock + TWO_HOURS
  {
    var t := Take(d, Event(SignIn(admin, ip), 0));
    assert t == DoSignIn(d, admin, ip);
  }

  /* ---------------------------------------------------------------- refreshes */

  /** A token given, first or next, is current at once and lasts as long as its session; only the next retires one. */
  lemma TokensLastAsTheirSession(s: Session, token: nat)
    ensures forall row | row in {IssuedRow(s, token), RotatedRow(s, token)} ::
              && row.refresh == Some(token) && row.refreshExpiresAt == Some(s.expiresAt)
              && row.lastSeenAt == s.lastSeenAt && row.expiresAt == s.expiresAt && row.ip == s.ip
              && row.revokedAt == s.revokedAt
    ensures IssuedRow(s, token).previous == None && RotatedRow(s, token).previous == s.refresh
  {
  }

  /** A current token past its own expiry, or without one, ends its session, however fresh the session is. */
  lemma StaleTokenEndsItsSession(rows: Sessions, id: nat, token: nat, ip: nat, now: int)
    requires HashesDistinct(rows) && Current(rows, id, token)
    requires rows[id].refreshExpiresAt == None || rows[id].refreshExpiresAt.value <= now
    ensures var (after, verdict) := Consumed(rows, token, ip, now);
            verdict == Expired && OnlyRow(rows, after, id) && EndedFor(rows[id], after[id], SessionExpired, now)
  {
    assert Holder(rows, token) == Some(id);
  }

  /** The live session to which `token` is the newest one given. */
  ghost predicate Newest(d: Desk, id: nat, token: nat) {
    && id in d.rows && d.rows[id].revokedAt == None
    && id in d.issued && d.issued[id] != [] && token == d.issued[id][|d.issued[id]| - 1]
  }

  lemma NewestIsHeld(d: Desk, id: nat, token: nat)
    requires Reachable(d) && Newest(d, id, token)
    ensures Holder(d.rows, token) == Some(id) && RowWhole(d.rows[id], d.clock)
  {
    ReachableIsChained(d);
    ChainsMakeHashesDistinct(d);
    NewestIsCurrent(d, id);
  }

  /**
    What a refresh with the newest token leaves behind: too late, or in time from another
    address, it ends the session; of a disabled admin it ends it too; else the
    token is retired for its successor and the idle window slides.
   */
  lemma RefreshLeaves(d: Desk, id: nat, token: nat, ip: nat, active: bool, now: int)
    requires Reachable(d) && d.clock <= now && Newest(d, id, token)
    ensures var (after, verdict) := Refreshed(d.rows, token, ip, active, d.nextToken, now);
            var inTime := now < d.rows[id].createdAt + TWO_HOURS;
            && OnlyRow(d.rows, after, id)
            && (!inTime ==> verdict == Expired && EndedFor(d.rows[id], after[id], SessionExpired, now))
            && (inTime && d.rows[id].ip != ip ==>
                  verdict == WrongAddress && EndedFor(d.rows[id], after[id], IpMismatch, now))
            && (inTime && d.rows[id].ip == ip && !active ==>
                  verdict == AdminGone
                  && EndedFor(d.rows[id].(lastSeenAt := now), after[id], AdminRevoked, now))
            && (inTime && d.rows[id].ip == ip && active ==>
                  verdict == Accepted
                  && after[id] == d.rows[id].(lastSeenAt := now, refresh := Some(d.nextToken),
                                              previous := Some(token), rotations := d.rows[id].rotations + 1))
  {
    NewestIsHeld(d, id, token);
  }

  /* -------------------------------------------------------------- revocations */

  /** Revoking ends exactly the live sessions it is meant for, and none that had ended before. */
  lemma RevokingEndsExactly(d: Desk, e: Event, i: nat)
    requires i in d.rows && (e.request.RevokeOne? || e.request.RevokeAll?)
    ensures var meant := if e.request.RevokeOne? then i == e.request.id else d.rows[i].admin == e.request.admin;
            && i in Take(d, e).rows
            && if meant && d.rows[i].revokedAt == None
               then EndedFor(d.rows[i], Take(d, e).rows[i], e.request.reason, d.clock + e.elapsed)
               else Take(d, e).rows[i] == d.rows[i]
  {
  }

  /** The number reported is that of the rows ended. */
  lemma RevokedAreCounted(rows: Sessions, admin: nat, reason: RevokeReason, now: int)
    ensures LiveSessions(rows, admin)
         == set i | i in rows && AllRevoked(rows, admin, reason, now)[i] != rows[i]
  {
  }

  /** Replaying a retired token ends every live session of its admin for that reason, and no other's. */
  lemma ReplayEndsExactly(d: Desk, e: Event, id: nat, i: nat)
    requires Reachable(d) && e.request.Refresh? && Retired(d.rows, id, e.request.token) && i in d.rows
    ensures i in Take(d, e).rows
    ensures if d.rows[i].admin == d.rows[id].admin && d.rows[i].revokedAt == None
            then EndedFor(d.rows[i], Take(d, e).rows[i], RefreshReuse, d.clock + e.elapsed)
            else Take(d, e).rows[i] == d.rows[i]
  {
    ReachableIsChained(d);
    ChainsMakeHashesDistinct(d);
    ReplayRevokesAll(d, e, id);
  }
}
