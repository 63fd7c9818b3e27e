/**
  Admin sessions and refresh tokens of src/auth/session.service.ts and the
  refresh path of src/auth/auth.service.ts.

  A refresh token is a fresh number and its hash is injective, so the hash columns
  hold the number itself.
 */
module AdminSessions {
  import opened Options

  const IDLE_TIMEOUT := 7_200_000
  const ABSOLUTE_SESSION := 7_200_000

  datatype RevokeReason =
    | TimedOut | IpMismatch | SessionExpired | RefreshReuse | AccountLocked
    | AdminRevoked | Logout | Administrative

  datatype Session = Session(
    admin: nat,
    ip: nat,
    createdAt: int,
    lastSeenAt: int,
    expiresAt: int,
    revokedAt: Option<int>,
    revokedReason: Option<RevokeReason>,
    refresh: Option<nat>,
    previous: Option<nat>,
    refreshExpiresAt: Option<int>,
    rotations: nat)

  type Sessions = map<nat, Session>

  datatype Verdict = Accepted | SessionNotFound | NotValid | Expired | Idle | WrongAddress | AdminGone

  /* ----------------------------------------------- what each statement writes */

  function NewSession(admin: nat, ip: nat, now: int): Session {
    Session(admin, ip, now, now, now + ABSOLUTE_SESSION, None, None, None, None, None, 0)
  }

  function RevokedRow(s: Session, reason: RevokeReason, now: int): Session {
    s.(revokedAt := Some(now), revokedReason := Some(reason),
       refresh := None, previous := None, refreshExpiresAt := None)
  }

  function IssuedRow(s: Session, token: nat): Session {
    s.(refresh := Some(token), previous := None, refreshExpiresAt := Some(s.expiresAt))
  }

  function RotatedRow(s: Session, token: nat): Session {
    s.(refresh := Some(token), previous := s.refresh, refreshExpiresAt := Some(s.expiresAt),
       rotations := s.rotations + 1)
  }

  function AllRevoked(rows: Sessions, admin: nat, reason: RevokeReason, now: int): Sessions {
    map k | k in rows ::
      if rows[k].admin == admin && rows[k].revokedAt == None then RevokedRow(rows[k], reason, now) else rows[k]
  }

  function LiveSessions(rows: Sessions, admin: nat): set<nat> {
    set k | k in rows && rows[k].admin == admin && rows[k].revokedAt == None
  }

  /** The checks every use of a session passes, and the row they leave behind. */
  function Checked(s: Session, ip: nat, now: int): (Session, Verdict) {
    if s.revokedAt.Some? then (s, NotValid)
    else if s.expiresAt <= now then (RevokedRow(s, SessionExpired, now), Expired)
    else if now - s.lastSeenAt > IDLE_TIMEOUT then (RevokedRow(s, TimedOut, now), Idle)
    else if s.ip != ip then (RevokedRow(s, IpMismatch, now), WrongAddress)
    else (s.(lastSeenAt := now), Accepted)
  }

  function Touched(rows: Sessions, id: nat, admin: nat, ip: nat, now: int): (Sessions, Verdict) {
    if id !in rows || rows[id].admin != admin then (rows, SessionNotFound)
    else
      var (row, verdict) := Checked(rows[id], ip, now);
      (rows[id := row], verdict)
  }

  ghost predicate Current(rows: Sessions, id: nat, token: nat) {
    id in rows && rows[id].refresh == Some(token)
  }

  ghost predicate Retired(rows: Sessions, id: nat, token: nat) {
    id in rows && rows[id].previous == Some(token)
  }

  /** No hash is current or retired in two sessions, nor current in one and retired in another. */
  ghost predicate HashesDistinct(rows: Sessions) {
    && (forall i, j, t | Current(rows, i, t) && Current(rows, j, t) :: i == j)
    && (forall i, j, t | Retired(rows, i, t) && Retired(rows, j, t) :: i == j)
    && (forall i, j, t | Current(rows, i, t) && Retired(rows, j, t) :: false)
  }

  ghost predicate HashesBelow(rows: Sessions, bound: nat) {
    forall i: nat, t: nat | Current(rows, i, t) || Retired(rows, i, t) :: t < bound
  }

  /** Dropping hashes, or leaving them where they are, keeps them distinct. */
  lemma DroppingKeepsDistinct(rows: Sessions, after: Sessions, bound: nat)
    requires HashesDistinct(rows) && HashesBelow(rows, bound)
    requires forall i: nat, t: nat | Current(after, i, t) :: Current(rows, i, t)
    requires forall i: nat, t: nat | Retired(after, i, t) :: Retired(rows, i, t)
    ensures HashesDistinct(after) && HashesBelow(after, bound)
  {
  }

  /** Putting a new token in the place of a session's current one keeps all hashes distinct. */
  lemma RotatingKeepsDistinct(rows: Sessions, id: nat, token: nat)
    requires HashesDistinct(rows) && HashesBelow(rows, token) && id in rows
    ensures HashesDistinct(rows[id := RotatedRow(rows[id], token)])
    ensures HashesBelow(rows[id := RotatedRow(rows[id], token)], token + 1)
    ensures HashesDistinct(rows[id := IssuedRow(rows[id], token)])
    ensures HashesBelow(rows[id := IssuedRow(rows[id], token)], token + 1)
  {
    var rotated := rows[id := RotatedRow(rows[id], token)];
    forall i: nat, t: nat | Current(rotated, i, t)
      ensures (i == id && t == token) || (i != id && Current(rows, i, t))
    {
    }
    forall i: nat, t: nat | Retired(rotated, i, t)
      ensures (i == id && Current(rows, i, t)) || (i != id && Retired(rows, i, t))
    {
    }
    var issued := rows[id := IssuedRow(rows[id], token)];
    forall i: nat, t: nat | Current(issued, i, t)
      ensures (i == id && t == token) || (i != id && Current(rows, i, t))
    {
    }
    forall i: nat, t: nat | Retired(issued, i, t)
      ensures i != id && Retired(rows, i, t)
    {
    }
  }

  /** The session the current-hash lookup finds. */
  ghost function Holder(rows: Sessions, token: nat): (id: Option<nat>)
    ensures id.Some? ==> Current(rows, id.value, token)
    ensures id == None ==> forall k :: !Current(rows, k, token)
  {
    if exists i :: Current(rows, i, token) then
      var i :| Current(rows, i, token);
      Some(i)
    else None
  }

  /** The session the retired-hash lookup finds. */
  ghost function RetiredHolder(rows: Sessions, token: nat): (id: Option<nat>)
    ensures id.Some? ==> Retired(rows, id.value, token)
    ensures id == None ==> forall k :: !Retired(rows, k, token)
  {
    if exists i :: Retired(rows, i, token) then
      var i :| Retired(rows, i, token);
      Some(i)
    else None
  }

  /** A token that is not current: a replay of the last retired one ends every session of its admin. */
  ghost function ReuseChecked(rows: Sessions, token: nat, now: int): Sessions {
    match RetiredHolder(rows, token)
    case None => rows
    case Some(id) => AllRevoked(rows, rows[id].admin, RefreshReuse, now)
  }

  ghost function Consumed(rows: Sessions, token: nat, ip: nat, now: int): (Sessions, Verdict) {
    match Holder(rows, token)
    case None => (ReuseChecked(rows, token, now), NotValid)
    case Some(id) =>
      if rows[id].refreshExpiresAt == None || rows[id].refreshExpiresAt.value <= now
      then (rows[id := RevokedRow(rows[id], SessionExpired, now)], Expired)
      else
        var (row, verdict) := Checked(rows[id], ip, now);
        (rows[id := row], verdict)
  }

  /** The whole refresh: consume, check the account, rotate. */
  ghost function Refreshed(rows: Sessions, token: nat, ip: nat, active: bool, successor: nat, now: int)
    : (Sessions, Verdict)
  {
    var (after, verdict) := Consumed(rows, token, ip, now);
    if verdict != Accepted then (after, verdict)
    else
      var id := Holder(rows, token).value;
      if !active then (after[id := RevokedRow(after[id], AdminRevoked, now)], AdminGone)
      else (after[id := RotatedRow(after[id], successor)], Accepted)
  }

  /* -------------------------------------------------------------- the service */

  class SessionService {
    var rows: Sessions
    var nextId: nat
    var nextToken: nat

    ghost predicate Valid()
      reads this
    {
      && HashesDistinct(rows)
      && (forall i | i in rows :: i < nextId)
      && HashesBelow(rows, nextToken)
    }

    constructor ()
      ensures Valid() && rows == map[]
    {
      rows, nextId, nextToken := map[], 0, 0;
    }

    method Create(admin: nat, ip: nat, now: int) returns (id: nat)
      requires Valid()
      modifies this`rows, this`nextId
      ensures Valid() && id == old(nextId) && nextId == id + 1
      ensures rows == old(rows)[id := NewSession(admin, ip, now)]
    {
      id := nextId;
      nextId := nextId + 1;
      rows := rows[id := NewSession(admin, ip, now)];
      assert forall i, t | i != id :: Current(rows, i, t) <==> Current(old(rows), i, t);
      assert forall i, t | i != id :: Retired(rows, i, t) <==> Retired(old(rows), i, t);
    }

    /** Every live session of the admin is revoked; the answer is how many there were. */
    method RevokeAllForUser(admin: nat, reason: RevokeReason, now: int) returns (affected: nat)
      requires Valid()
      modifies this`rows
      ensures Valid() && rows == AllRevoked(old(rows), admin, reason, now)
      ensures affected == |LiveSessions(old(rows), admin)| && LiveSessions(rows, admin) == {}
    {
      ghost var was := rows;
      affected := |LiveSessions(rows, admin)|;
      rows := AllRevoked(rows, admin, reason, now);
      DroppingKeepsDistinct(was, rows, nextToken);
    }

    method RevokeById(id: nat, reason: RevokeReason, now: int)
      requires Valid()
      modifies this`rows
      ensures Valid()
      ensures rows == if id in old(rows) && old(rows)[id].revokedAt == None
                      then old(rows)[id := RevokedRow(old(rows)[id], reason, now)] else old(rows)
    {
      if id in rows && rows[id].revokedAt == None {
        ghost var was := rows;
        rows := rows[id := RevokedRow(rows[id], reason, now)];
        DroppingKeepsDistinct(was, rows, nextToken);
      }
    }

    /** The checks in the order they are made; every rejection but the first revokes the row. */
    method AssertUsable(id: nat, ip: nat, now: int) returns (verdict: Verdict)
      requires Valid() && id in rows
      modifies this`rows
      ensures Valid()
      ensures rows == old(rows)[id := Checked(old(rows)[id], ip, now).0]
      ensures verdict == Checked(old(rows)[id], ip, now).1
    {
      var session := rows[id];
      DroppingKeepsDistinct(rows, rows[id := Checked(session, ip, now).0], nextToken);
      if session.revokedAt.Some? {
        assert rows == rows[id := session];
        return NotValid;
      }
      if session.expiresAt <= now {
        rows := rows[id := RevokedRow(session, SessionExpired, now)];
        return Expired;
      }
      if now - session.lastSeenAt > IDLE_TIMEOUT {
        rows := rows[id := RevokedRow(session, TimedOut, now)];
        return Idle;
      }
      if session.ip != ip {
        rows := rows[id := RevokedRow(session, IpMismatch, now)];
        return WrongAddress;
      }
      rows := rows[id := session.(lastSeenAt := now)];
      verdict := Accepted;
    }

    method Touch(id: nat, admin: nat, ip: nat, now: int) returns (verdict: Verdict)
      requires Valid()
      modifies this`rows
      ensures Valid()
      ensures (rows, verdict) == Touched(old(rows), id, admin, ip, now)
    {
      if id !in rows { return SessionNotFound; }
      if rows[id].admin != admin { return SessionNotFound; }
      verdict := AssertUsable(id, ip, now);
    }

    method DetectReuse(token: nat, now: int)
      requires Valid()
      modifies this`rows
      ensures Valid() && rows == ReuseChecked(old(rows), token, now)
    {
      if id: nat :| id in rows && rows[id].previous == Some(token) {
        assert Retired(rows, id, token);
        var _ := RevokeAllForUser(rows[id].admin, RefreshReuse, now);
      } else {
        assert forall k :: !Retired(rows, k, token);
      }
    }

    method ConsumeRefreshToken(token: nat, ip: nat, now: int) returns (found: Option<nat>, verdict: Verdict)
      requires Valid()
      modifies this`rows
      ensures Valid()
      ensures (rows, verdict) == Consumed(old(rows), token, ip, now)
      ensures found == Holder(old(rows), token)
    {
      if id: nat :| id in rows && rows[id].refresh == Some(token) {
        assert Current(rows, id, token);
        found := Some(id);
        if rows[id].refreshExpiresAt == None || rows[id].refreshExpiresAt.value <= now {
          DroppingKeepsDistinct(rows, rows[id := RevokedRow(rows[id], SessionExpired, now)], nextToken);
          rows := rows[id := RevokedRow(rows[id], SessionExpired, now)];
          return found, Expired;
        }
        verdict := AssertUsable(id, ip, now);
      } else {
        assert forall k :: !Current(rows, k, token);
        found := None;
        DetectReuse(token, now);
        verdict := NotValid;
      }
    }

    method IssueRefreshToken(id: nat) returns (token: nat)
      requires Valid() && id in rows
      modifies this`rows, this`nextToken
      ensures Valid()
      ensures token == old(nextToken) && nextToken == token + 1
      ensures rows == old(rows)[id := IssuedRow(old(rows)[id], token)]
    {
      RotatingKeepsDistinct(rows, id, nextToken);
      token := nextToken;
      nextToken := nextToken + 1;
      rows := rows[id := IssuedRow(rows[id], token)];
    }

    method RotateRefreshToken(id: nat) returns (token: nat)
      requires Valid() && id in rows
      modifies this`rows, this`nextToken
      ensures Valid()
      ensures token == old(nextToken) && nextToken == token + 1
      ensures rows == old(rows)[id := RotatedRow(old(rows)[id], token)]
    {
      RotatingKeepsDistinct(rows, id, nextToken);
      token := nextToken;
      nextToken := nextToken + 1;
      rows := rows[id := RotatedRow(rows[id], token)];
    }

    /** The refresh endpoint; `active` is the account flag as read after the token was consumed. */
    method Refresh(token: nat, ip: nat, active: bool, now: int) returns (verdict: Verdict)
      requires Valid()
      modifies this`rows, this`nextToken
      ensures Valid()
      ensures (rows, verdict) == Refreshed(old(rows), token, ip, active, old(nextToken), now)
      ensures nextToken == old(nextToken) + if verdict == Accepted then 1 else 0
    {
      var found;
      found, verdict := ConsumeRefreshToken(token, ip, now);
      if verdict != Accepted { return; }
      var id := found.value;
      if !active {
        DroppingKeepsDistinct(rows, rows[id := RevokedRow(rows[id], AdminRevoked, now)], nextToken);
        rows := rows[id := RevokedRow(rows[id], AdminRevoked, now)];
        return AdminGone;
      }
      var successor := RotateRefreshToken(id);
    }
  }
}
