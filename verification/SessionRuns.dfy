/**
  Every run of sign-ins, requests, refreshes and revocations, each served as one
  step on a clock that never goes back.
 */
module SessionRuns {
  import opened Options
  import opened AdminSessions

  /** `issued` and `accepted` are history: the tokens each session was given, and those it exchanged. */
  datatype Desk = Desk(
    rows: Sessions,
    nextId: nat,
    nextToken: nat,
    clock: int,
    issued: map<nat, seq<nat>>,
    accepted: map<nat, seq<nat>>)

  datatype Request =
    | SignIn(admin: nat, ip: nat)
    | Use(id: nat, admin: nat, ip: nat)
    | Refresh(token: nat, ip: nat, active: bool)
    | RevokeOne(id: nat, reason: RevokeReason)
    | RevokeAll(admin: nat, reason: RevokeReason)

  /** A request and the time that has passed since the one before it. */
  datatype Event = Event(request: Request, elapsed: nat)

  const START := Desk(map[], 0, 0, 0, map[], map[])

  function DoSignIn(d: Desk, admin: nat, ip: nat): Desk {
    d.(rows := d.rows[d.nextId := IssuedRow(NewSession(admin, ip, d.clock), d.nextToken)],
       nextId := d.nextId + 1,
       nextToken := d.nextToken + 1,
       issued := d.issued[d.nextId := [d.nextToken]],
       accepted := d.accepted[d.nextId := []])
  }

  ghost function RefreshOf(d: Desk, token: nat, ip: nat, active: bool): (Sessions, Verdict) {
    Refreshed(d.rows, token, ip, active, d.nextToken, d.clock)
  }

  function Tokens(history: map<nat, seq<nat>>, id: nat): seq<nat> {
    if id in history then history[id] else []
  }

  ghost function DoRefresh(d: Desk, token: nat, ip: nat, active: bool): Desk {
    var (rows, verdict) := RefreshOf(d, token, ip, active);
    if verdict != Accepted then d.(rows := rows)
    else
      var id := Holder(d.rows, token).value;
      d.(rows := rows,
         nextToken := d.nextToken + 1,
         issued := d.issued[id := Tokens(d.issued, id) + [d.nextToken]],
         accepted := d.accepted[id := Tokens(d.accepted, id) + [token]])
  }

  ghost function Serve(d: Desk, r: Request): Desk {
    match r
    case SignIn(admin, ip) => DoSignIn(d, admin, ip)
    case Use(id, admin, ip) => d.(rows := Touched(d.rows, id, admin, ip, d.clock).0)
    case Refresh(token, ip, active) => DoRefresh(d, token, ip, active)
    case RevokeOne(id, reason) =>
      if id in d.rows && d.rows[id].revokedAt == None
      then d.(rows := d.rows[id := RevokedRow(d.rows[id], reason, d.clock)]) else d
    case RevokeAll(admin, reason) => d.(rows := AllRevoked(d.rows, admin, reason, d.clock))
  }

  function Later(d: Desk, elapsed: nat): Desk {
    d.(clock := d.clock + elapsed)
  }

  ghost function Take(d: Desk, e: Event): Desk {
    Serve(Later(d, e.elapsed), e.request)
  }

  ghost function Run(d: Desk, events: seq<Event>): Desk
    decreases |events|
  {
    if events == [] then d else Run(Take(d, events[0]), events[1..])
  }

  /** A state the service can get into, from no sessions at all. */
  ghost predicate Reachable(d: Desk) {
    exists events :: Run(START, events) == d
  }

  /* ------------------------------------------------- clocks and dead sessions */

  /** One row's clocks; a revoked row says when and why, and has no hash left. */
  ghost predicate RowWhole(s: Session, clock: int) {
    && s.expiresAt == s.createdAt + ABSOLUTE_SESSION
    && s.createdAt <= s.lastSeenAt <= clock
    && (s.revokedAt.Some? ==> s.revokedReason.Some? && s.createdAt <= s.revokedAt.value <= clock)
    && (s.revokedAt == None ==> s.revokedReason == None)
    && s.refreshExpiresAt == (if s.revokedAt == None then Some(s.expiresAt) else None)
    && (s.revokedAt.Some? ==> s.refresh == None && s.previous == None)
  }

  ghost predicate RowsWhole(d: Desk) {
    forall i | i in d.rows :: RowWhole(d.rows[i], d.clock)
  }

  /** A row that went from `s` to `t`: same session, and no column of a revoked one ever changes. */
  ghost predicate RowMoves(s: Session, t: Session) {
    && t.admin == s.admin && t.ip == s.ip && t.createdAt == s.createdAt && t.expiresAt == s.expiresAt
    && s.lastSeenAt <= t.lastSeenAt && s.rotations <= t.rotations
    && (s.revokedAt.Some? ==> t == s)
  }

  lemma CheckedMoves(s: Session, ip: nat, now: int)
    requires RowWhole(s, now)
    ensures RowWhole(Checked(s, ip, now).0, now) && RowMoves(s, Checked(s, ip, now).0)
    ensures Checked(s, ip, now).1 == Accepted ==> now < s.createdAt + ABSOLUTE_SESSION
    ensures Checked(s, ip, now).1 != Idle
    ensures Checked(s, ip, now).1 != Accepted ==> Checked(s, ip, now).0.revokedAt.Some?
    ensures Checked(s, ip, now).1 == Accepted ==>
              s.revokedAt == None && Checked(s, ip, now).0 == s.(lastSeenAt := now)
  {
  }

  lemma ConsumedMoves(rows: Sessions, token: nat, ip: nat, now: int)
    requires forall i | i in rows :: RowWhole(rows[i], now)
    ensures var (after, verdict) := Consumed(rows, token, ip, now);
            && after.Keys == rows.Keys
            && (forall i | i in rows :: RowWhole(after[i], now) && RowMoves(rows[i], after[i]))
            && verdict != Idle
            && (verdict == Accepted ==>
                  var id := Holder(rows, token);
                  && id.Some? && now < rows[id.value].createdAt + ABSOLUTE_SESSION
                  && rows[id.value].revokedAt == None
                  && after == rows[id.value := rows[id.value].(lastSeenAt := now)])
  {
    var id := Holder(rows, token);
    if id.Some? {
      CheckedMoves(rows[id.value], ip, now);
    }
  }

  lemma RefreshedMoves(rows: Sessions, token: nat, ip: nat, active: bool, successor: nat, now: int)
    requires forall i | i in rows :: RowWhole(rows[i], now)
    ensures var (after, verdict) := Refreshed(rows, token, ip, active, successor, now);
            && after.Keys == rows.Keys
            && (forall i | i in rows :: RowWhole(after[i], now) && RowMoves(rows[i], after[i]))
            && verdict != Idle
            && (verdict == Accepted ==>
                  var id := Holder(rows, token);
                  && id.Some? && now < rows[id.value].createdAt + ABSOLUTE_SESSION
                  && rows[id.value].revokedAt == None
                  && after == rows[id.value := RotatedRow(rows[id.value].(lastSeenAt := now), successor)])
  {
    ConsumedMoves(rows, token, ip, now);
  }

  /** All rows of `rows` moved on legally. */
  ghost predicate RowsMove(rows: Sessions, after: Sessions, now: int) {
    forall i | i in rows :: i in after && RowWhole(after[i], now) && RowMoves(rows[i], after[i])
  }

  lemma RevokingMoves(rows: Sessions, admin: nat, id: nat, reason: RevokeReason, now: int)
    requires forall i | i in rows :: RowWhole(rows[i], now)
    ensures RowsMove(rows, AllRevoked(rows, admin, reason, now), now)
    ensures id in rows && rows[id].revokedAt == None ==>
              RowsMove(rows, rows[id := RevokedRow(rows[id], reason, now)], now)
  {
  }

  lemma TouchedMoves(rows: Sessions, id: nat, admin: nat, ip: nat, now: int)
    requires forall i | i in rows :: RowWhole(rows[i], now)
    ensures RowsMove(rows, Touched(rows, id, admin, ip, now).0, now)
    ensures Touched(rows, id, admin, ip, now).0.Keys == rows.Keys
  {
    if id in rows { CheckedMoves(rows[id], ip, now); }
  }

  lemma ServingMoves(d: Desk, r: Request)
    requires RowsWhole(d) && forall i | i in d.rows :: i < d.nextId
    ensures RowsMove(d.rows, Serve(d, r).rows, d.clock)
    ensures forall i | i in Serve(d, r).rows && i !in d.rows ::
              r.SignIn? && i == d.nextId && RowWhole(Serve(d, r).rows[i], d.clock)
    ensures Serve(d, r).clock == d.clock && Serve(d, r).nextId == d.nextId + (if r.SignIn? then 1 else 0)
  {
    match r
    case SignIn(_, _) =>
    case Use(id, admin, ip) => TouchedMoves(d.rows, id, admin, ip, d.clock);
    case Refresh(token, ip, active) => RefreshedMoves(d.rows, token, ip, active, d.nextToken, d.clock);
    case RevokeOne(id, reason) => RevokingMoves(d.rows, 0, id, reason, d.clock);
    case RevokeAll(admin, reason) => RevokingMoves(d.rows, admin, 0, reason, d.clock);
  }

  lemma TimeKeepsRows(d: Desk, later: Desk)
    requires RowsWhole(d) && later.rows == d.rows && d.clock <= later.clock
    ensures RowsWhole(later)
  {
    forall i | i in later.rows ensures RowWhole(later.rows[i], later.clock) {
      assert RowWhole(d.rows[i], d.clock);
    }
  }

  lemma StepKeepsRows(d: Desk, e: Event)
    requires RowsWhole(d) && forall i | i in d.rows :: i < d.nextId
    ensures RowsWhole(Take(d, e)) && forall i | i in Take(d, e).rows :: i < Take(d, e).nextId
    ensures forall i | i in d.rows :: i in Take(d, e).rows && RowMoves(d.rows[i], Take(d, e).rows[i])
  {
    var later := d.(clock := d.clock + e.elapsed);
    var t := Serve(later, e.request);
    assert Take(d, e) == t;
    TimeKeepsRows(d, later);
    ServingMoves(later, e.request);
    ServedRows(d, later, t);
  }

  lemma ServedRows(d: Desk, later: Desk, t: Desk)
    requires later == d.(clock := later.clock) && t.clock == later.clock
    requires forall i | i in d.rows :: i < d.nextId
    requires RowsMove(later.rows, t.rows, later.clock)
    requires forall i | i in t.rows && i !in later.rows ::
               i == d.nextId && t.nextId == d.nextId + 1 && RowWhole(t.rows[i], t.clock)
    requires d.nextId <= t.nextId
    ensures RowsWhole(t) && forall i | i in t.rows :: i < t.nextId
    ensures forall i | i in d.rows :: i in t.rows && RowMoves(d.rows[i], t.rows[i])
  {
  }

  /** Over a whole run a session keeps its end, and once revoked stays revoked with both hashes gone. */
  lemma {:induction false} RunKeepsRows(d: Desk, events: seq<Event>)
    requires RowsWhole(d) && forall i | i in d.rows :: i < d.nextId
    ensures RowsWhole(Run(d, events))
    ensures forall i | i in d.rows :: i in Run(d, events).rows && RowMoves(d.rows[i], Run(d, events).rows[i])
    decreases |events|
  {
    if events != [] {
      StepKeepsRows(d, events[0]);
      RunKeepsRows(Take(d, events[0]), events[1..]);
    }
  }

  lemma ReachableRows(d: Desk)
    requires Reachable(d)
    ensures RowsWhole(d)
  {
    var events :| Run(START, events) == d;
    RunKeepsRows(START, events);
  }

  /**
    In every reachable state an accepted request comes strictly before two hours
    after sign-in, and the idle timeout is never what turns one away.
   */
  lemma AcceptedWithinTwoHours(d: Desk, elapsed: nat, id: nat, admin: nat, ip: nat)
    requires Reachable(d)
    ensures var verdict := Touched(d.rows, id, admin, ip, d.clock + elapsed).1;
            && verdict != Idle
            && (verdict == Accepted ==> id in d.rows && d.clock + elapsed < d.rows[id].createdAt + ABSOLUTE_SESSION)
  {
    ReachableRows(d);
    if id in d.rows {
      CheckedMoves(d.rows[id], ip, d.clock + elapsed);
    }
  }

  lemma RefreshedWithinTwoHours(d: Desk, elapsed: nat, token: nat, ip: nat, active: bool)
    requires Reachable(d)
    ensures var verdict := Refreshed(d.rows, token, ip, active, d.nextToken, d.clock + elapsed).1;
            && verdict != Idle
            && (verdict == Accepted ==>
                  var id := Holder(d.rows, token);
                  id.Some? && d.clock + elapsed < d.rows[id.value].createdAt + ABSOLUTE_SESSION)
  {
    ReachableRows(d);
    RefreshedMoves(d.rows, token, ip, active, d.nextToken, d.clock + elapsed);
  }

  /* ------------------------------------------------------- the rotation chain */

  /** The session's hashes are the last and the last but one of the tokens it was given. */
  ghost predicate ChainOf(s: Session, issued: seq<nat>, accepted: seq<nat>) {
    && issued != []
    && accepted == issued[..|issued| - 1]
    && (s.refresh == None || s.refresh == Some(issued[|issued| - 1]))
    && (s.previous == None || (|issued| >= 2 && s.previous == Some(issued[|issued| - 2])))
    && (s.revokedAt == None ==> s.refresh.Some? && (|issued| >= 2 ==> s.previous.Some?))
  }

  /** All tokens ever issued are different, and below the next one. */
  ghost predicate TokensDistinct(d: Desk) {
    && (forall i, a | i in d.issued && 0 <= a < |d.issued[i]| :: d.issued[i][a] < d.nextToken)
    && (forall i, a, j, b | i in d.issued && j in d.issued && 0 <= a < |d.issued[i]| && 0 <= b < |d.issued[j]| ::
          d.issued[i][a] == d.issued[j][b] ==> i == j && a == b)
  }

  ghost predicate Chained(d: Desk) {
    && d.issued.Keys == d.rows.Keys && d.accepted.Keys == d.rows.Keys
    && (forall i | i in d.rows :: i < d.nextId)
    && (forall i | i in d.rows :: ChainOf(d.rows[i], d.issued[i], d.accepted[i]))
    && TokensDistinct(d)
  }

  lemma ChainsMakeHashesDistinct(d: Desk)
    requires Chained(d)
    ensures HashesDistinct(d.rows)
  {
    forall i: nat, t: nat | Current(d.rows, i, t)
      ensures t == d.issued[i][|d.issued[i]| - 1]
    {
    }
    forall i: nat, t: nat | Retired(d.rows, i, t)
      ensures |d.issued[i]| >= 2 && t == d.issued[i][|d.issued[i]| - 2]
    {
    }
  }

  /** A row that only loses hashes, or is only touched, keeps its chain. */
  lemma LosingKeepsChain(d: Desk, t: Desk)
    requires Chained(d)
    requires t.issued == d.issued && t.accepted == d.accepted
    requires t.nextToken == d.nextToken && t.nextId == d.nextId
    requires t.rows.Keys == d.rows.Keys
    requires forall i | i in d.rows :: KeepsOrLoses(d.rows[i], t.rows[i])
    ensures Chained(t)
  {
  }

  lemma NewSessionKeepsTokensDistinct(d: Desk, id: nat)
    requires TokensDistinct(d) && id !in d.issued
    ensures TokensDistinct(d.(nextToken := d.nextToken + 1, issued := d.issued[id := [d.nextToken]]))
  {
  }

  lemma SignInKeepsChain(d: Desk, admin: nat, ip: nat)
    requires Chained(d)
    ensures Chained(DoSignIn(d, admin, ip))
  {
    var t := DoSignIn(d, admin, ip);
    assert TokensDistinct(t) by { NewSessionKeepsTokensDistinct(d, d.nextId); }
    forall i | i in t.rows ensures i < t.nextId && ChainOf(t.rows[i], t.issued[i], t.accepted[i]) {
      if i != d.nextId { assert ChainOf(d.rows[i], d.issued[i], d.accepted[i]); }
    }
  }

  lemma RotatedChain(s: Session, issued: seq<nat>, accepted: seq<nat>, token: nat, successor: nat, now: int)
    requires ChainOf(s, issued, accepted) && s.refresh == Some(token) && s.revokedAt == None
    ensures ChainOf(RotatedRow(s.(lastSeenAt := now), successor), issued + [successor], accepted + [token])
  {
    assert (issued + [successor])[..|issued|] == issued;
    assert issued == issued[..|issued| - 1] + [issued[|issued| - 1]];
  }

  lemma TokensStayDistinct(d: Desk, id: nat)
    requires TokensDistinct(d) && id in d.issued
    ensures TokensDistinct(d.(nextToken := d.nextToken + 1, issued := d.issued[id := d.issued[id] + [d.nextToken]]))
  {
  }

  lemma RotationKeepsChain(d: Desk, id: nat, token: nat, t: Desk)
    requires Chained(d) && id in d.rows && Current(d.rows, id, token) && d.rows[id].revokedAt == None
    requires t == d.(rows := d.rows[id := RotatedRow(d.rows[id].(lastSeenAt := d.clock), d.nextToken)],
                     nextToken := d.nextToken + 1,
                     issued := d.issued[id := d.issued[id] + [d.nextToken]],
                     accepted := d.accepted[id := d.accepted[id] + [token]])
    ensures Chained(t)
  {
    RotatedChain(d.rows[id], d.issued[id], d.accepted[id], token, d.nextToken, d.clock);
    TokensStayDistinct(d, id);
    assert TokensDistinct(t);
  }

  /** The row keeps its hashes and its revocation mark, or loses the hashes for good. */
  ghost predicate KeepsOrLoses(s: Session, t: Session) {
    || (t.refresh == s.refresh && t.previous == s.previous && t.revokedAt == s.revokedAt)
    || (t.refresh == None && t.previous == None && t.revokedAt.Some?)
  }

  ghost predicate AllKeepOrLose(rows: Sessions, after: Sessions) {
    after.Keys == rows.Keys && forall i | i in rows :: KeepsOrLoses(rows[i], after[i])
  }

  lemma ConsumingKeepsOrLoses(rows: Sessions, token: nat, ip: nat, now: int)
    ensures AllKeepOrLose(rows, Consumed(rows, token, ip, now).0)
  {
  }

  lemma RejectionKeepsOrLoses(rows: Sessions, token: nat, ip: nat, active: bool, successor: nat, now: int)
    requires Refreshed(rows, token, ip, active, successor, now).1 != Accepted
    ensures AllKeepOrLose(rows, Refreshed(rows, token, ip, active, successor, now).0)
  {
    ConsumingKeepsOrLoses(rows, token, ip, now);
  }

  lemma RefreshKeepsChain(d: Desk, token: nat, ip: nat, active: bool)
    requires Chained(d) && RowsWhole(d)
    ensures Chained(DoRefresh(d, token, ip, active))
  {
    var (rows, verdict) := RefreshOf(d, token, ip, active);
    if verdict == Accepted {
      RefreshedMoves(d.rows, token, ip, active, d.nextToken, d.clock);
      RotationKeepsChain(d, Holder(d.rows, token).value, token, DoRefresh(d, token, ip, active));
    } else {
      RejectionKeepsOrLoses(d.rows, token, ip, active, d.nextToken, d.clock);
      LosingKeepsChain(d, d.(rows := rows));
    }
  }

  lemma OtherRequestsKeepOrLose(d: Desk, r: Request)
    requires !r.SignIn? && !r.Refresh?
    ensures AllKeepOrLose(d.rows, Serve(d, r).rows)
    ensures Serve(d, r) == d.(rows := Serve(d, r).rows)
  {
  }

  lemma ServingKeepsChain(d: Desk, r: Request)
    requires Chained(d) && RowsWhole(d)
    ensures Chained(Serve(d, r))
  {
    if r.SignIn? {
      SignInKeepsChain(d, r.admin, r.ip);
    } else if r.Refresh? {
      RefreshKeepsChain(d, r.token, r.ip, r.active);
    } else {
      OtherRequestsKeepOrLose(d, r);
      LosingKeepsChain(d, Serve(d, r));
    }
  }

  lemma TimeKeepsChain(d: Desk, later: Desk)
    requires Chained(d) && RowsWhole(d)
    requires later == d.(clock := later.clock) && d.clock <= later.clock
    ensures Chained(later) && RowsWhole(later)
  {
    forall i | i in later.rows ensures RowWhole(later.rows[i], later.clock) {
      assert RowWhole(d.rows[i], d.clock);
    }
    assert TokensDistinct(later) by { assert later.issued == d.issued && later.nextToken == d.nextToken; }
  }

  lemma ServingKeepsRows(d: Desk, r: Request)
    requires RowsWhole(d) && forall i | i in d.rows :: i < d.nextId
    ensures RowsWhole(Serve(d, r))
  {
    ServingMoves(d, r);
    ServedRows(d, d, Serve(d, r));
  }

  /** What the clock and every request keep, a run keeps. */
  lemma {:induction false} RunKeeps(d: Desk, events: seq<Event>, kept: Desk -> bool)
    requires kept(d)
    requires forall x, n: nat | kept(x) :: kept(Later(x, n))
    requires forall x, r | kept(x) :: kept(Serve(x, r))
    ensures kept(Run(d, events))
    decreases |events|
  {
    if events != [] {
      RunKeeps(Take(d, events[0]), events[1..], kept);
    }
  }

  lemma RunKeepsChain(d: Desk, events: seq<Event>)
    requires Chained(d) && RowsWhole(d)
    ensures Chained(Run(d, events)) && RowsWhole(Run(d, events))
  {
    var kept := (x: Desk) => Chained(x) && RowsWhole(x);
    forall x, n: nat | kept(x) ensures kept(Later(x, n)) {
      TimeKeepsChain(x, Later(x, n));
    }
    forall x, r | kept(x) ensures kept(Serve(x, r)) {
      ServingKeepsChain(x, r);
      ServingKeepsRows(x, r);
    }
    RunKeeps(d, events, kept);
  }

  lemma ReachableIsChained(d: Desk)
    requires Reachable(d)
    ensures Chained(d) && RowsWhole(d)
  {
    var events :| Run(START, events) == d;
    RunKeepsChain(START, events);
  }

  /**
    The refresh tokens a session has accepted are those it was given, in order, all
    but the last; no token is accepted twice or by two sessions, and no hash is
    current or retired in two.
   */
  lemma OneRotationChain(d: Desk)
    requires Reachable(d)
    ensures forall i | i in d.rows :: i in d.issued && i in d.accepted
              && d.issued[i] != [] && d.accepted[i] == d.issued[i][..|d.issued[i]| - 1]
    ensures forall i, a, j, b | i in d.accepted && j in d.accepted
              && 0 <= a < |d.accepted[i]| && 0 <= b < |d.accepted[j]|
              && d.accepted[i][a] == d.accepted[j][b] :: i == j && a == b
    ensures HashesDistinct(d.rows)
  {
    ReachableIsChained(d);
    ChainsMakeHashesDistinct(d);
    forall i, a, j, b | i in d.accepted && j in d.accepted
        && 0 <= a < |d.accepted[i]| && 0 <= b < |d.accepted[j]| && d.accepted[i][a] == d.accepted[j][b]
      ensures i == j && a == b
    {
      assert d.accepted[i][a] == d.issued[i][a] && d.accepted[j][b] == d.issued[j][b];
    }
  }

  /** Session `id` may exchange `token`: its newest, from its own address, while it lives. */
  ghost predicate MayExchange(d: Desk, id: nat, token: nat, ip: nat, now: int) {
    && id in d.rows && id in d.issued && d.issued[id] != []
    && token == d.issued[id][|d.issued[id]| - 1]
    && d.rows[id].revokedAt == None
    && d.rows[id].ip == ip
    && now < d.rows[id].createdAt + ABSOLUTE_SESSION
  }

  lemma ExchangeIsAccepted(d: Desk, id: nat, token: nat, ip: nat, now: int)
    requires RowsWhole(d) && HashesDistinct(d.rows) && Current(d.rows, id, token)
    requires d.rows[id].revokedAt == None && d.rows[id].ip == ip
    requires now < d.rows[id].createdAt + ABSOLUTE_SESSION
    ensures Refreshed(d.rows, token, ip, true, d.nextToken, now).1 == Accepted
    ensures Refreshed(d.rows, token, ip, false, d.nextToken, now).1 == AdminGone
  {
    assert RowWhole(d.rows[id], d.clock);
    assert Holder(d.rows, token) == Some(id);
    assert Checked(d.rows[id], ip, now).1 == Accepted;
    assert Consumed(d.rows, token, ip, now).1 == Accepted;
  }

  lemma AcceptedIsExchange(rows: Sessions, token: nat, ip: nat, active: bool, successor: nat, now: int)
    requires Refreshed(rows, token, ip, active, successor, now).1 == Accepted
    ensures active && Holder(rows, token).Some?
    ensures var row := rows[Holder(rows, token).value];
            row.ip == ip && row.revokedAt == None && now < row.expiresAt
  {
  }

  lemma NewestIsCurrent(d: Desk, id: nat)
    requires Chained(d) && id in d.rows && d.rows[id].revokedAt == None
    ensures d.issued[id] != [] && Current(d.rows, id, d.issued[id][|d.issued[id]| - 1])
  {
    assert ChainOf(d.rows[id], d.issued[id], d.accepted[id]);
  }

  lemma ExchangeIsTaken(d: Desk, id: nat, token: nat, ip: nat, active: bool, now: int)
    requires Chained(d) && RowsWhole(d) && MayExchange(d, id, token, ip, now)
    ensures active <==> Refreshed(d.rows, token, ip, active, d.nextToken, now).1 == Accepted
  {
    assert HashesDistinct(d.rows) by { ChainsMakeHashesDistinct(d); }
    assert Current(d.rows, id, token) by { NewestIsCurrent(d, id); }
    ExchangeIsAccepted(d, id, token, ip, now);
  }

  lemma TakenIsExchange(d: Desk, token: nat, ip: nat, active: bool, now: int) returns (id: nat)
    requires Chained(d) && RowsWhole(d)
    requires Refreshed(d.rows, token, ip, active, d.nextToken, now).1 == Accepted
    ensures active && MayExchange(d, id, token, ip, now)
  {
    AcceptedIsExchange(d.rows, token, ip, active, d.nextToken, now);
    id := Holder(d.rows, token).value;
    assert RowWhole(d.rows[id], d.clock);
    NewestIsCurrent(d, id);
  }

  /** A refresh is accepted exactly when an active admin's living session presents the newest token it was given. */
  lemma RefreshAcceptedIff(d: Desk, token: nat, ip: nat, active: bool, now: int)
    requires Reachable(d) && d.clock <= now
    ensures Refreshed(d.rows, token, ip, active, d.nextToken, now).1 == Accepted
            <==> active && exists id: nat :: MayExchange(d, id, token, ip, now)
  {
    assert Chained(d) && RowsWhole(d) by { ReachableIsChained(d); }
    if id: nat :| MayExchange(d, id, token, ip, now) {
      ExchangeIsTaken(d, id, token, ip, active, now);
    } else if Refreshed(d.rows, token, ip, active, d.nextToken, now).1 == Accepted {
      var id := TakenIsExchange(d, token, ip, active, now);
    }
  }

  /* ------------------------------------------------------------ reuse detection */

  ghost predicate NoneLeft(rows: Sessions, admin: nat) {
    forall i | i in rows && rows[i].admin == admin ::
      rows[i].revokedAt.Some? && rows[i].refresh == None && rows[i].previous == None
  }

  lemma RejectedRefresh(d: Desk, e: Event, answer: (Sessions, Verdict))
    requires e.request.Refresh? && answer.1 != Accepted
    requires answer == Refreshed(d.rows, e.request.token, e.request.ip, e.request.active,
                                 d.nextToken, d.clock + e.elapsed)
    ensures Take(d, e).rows == answer.0
  {
  }

  lemma ReplayRevokesAll(d: Desk, e: Event, id: nat)
    requires HashesDistinct(d.rows) && e.request.Refresh? && Retired(d.rows, id, e.request.token)
    ensures Take(d, e).rows == AllRevoked(d.rows, d.rows[id].admin, RefreshReuse, d.clock + e.elapsed)
  {
    var now := d.clock + e.elapsed;
    RetiredIsReused(d.rows, id, e.request.token, e.request.ip, e.request.active, d.nextToken, now);
    RejectedRefresh(d, e, (AllRevoked(d.rows, d.rows[id].admin, RefreshReuse, now), NotValid));
  }

  /** Presenting the token a session has just rotated out ends every session of its admin. */
  lemma RetiredTokenEndsEverySession(d: Desk, e: Event, id: nat)
    requires Reachable(d) && e.request.Refresh?
    requires Retired(d.rows, id, e.request.token)
    ensures NoneLeft(Take(d, e).rows, d.rows[id].admin)
  {
    assert Chained(d) && RowsWhole(d) by { ReachableIsChained(d); }
    assert Take(d, e).rows == AllRevoked(d.rows, d.rows[id].admin, RefreshReuse, d.clock + e.elapsed) by {
      ChainsMakeHashesDistinct(d);
      ReplayRevokesAll(d, e, id);
    }
    NobodyLeft(d, d.rows[id].admin, d.clock + e.elapsed);
  }

  lemma RetiredIsReused(rows: Sessions, id: nat, token: nat, ip: nat, active: bool, successor: nat, now: int)
    requires HashesDistinct(rows) && Retired(rows, id, token)
    ensures Refreshed(rows, token, ip, active, successor, now)
            == (AllRevoked(rows, rows[id].admin, RefreshReuse, now), NotValid)
  {
    assert forall k :: !Current(rows, k, token);
    assert RetiredHolder(rows, token) == Some(id);
  }

  lemma NobodyLeft(d: Desk, admin: nat, now: int)
    requires RowsWhole(d)
    ensures NoneLeft(AllRevoked(d.rows, admin, RefreshReuse, now), admin)
  {
    forall i | i in d.rows && d.rows[i].admin == admin
      ensures var row := AllRevoked(d.rows, admin, RefreshReuse, now)[i];
              row.revokedAt.Some? && row.refresh == None && row.previous == None
    {
      assert RowWhole(d.rows[i], d.clock);
    }
  }

  lemma AbsentTokenChangesNothing(d: Desk, e: Event)
    requires e.request.Refresh?
    requires forall i :: !Current(d.rows, i, e.request.token) && !Retired(d.rows, i, e.request.token)
    ensures Take(d, e).rows == d.rows
  {
  }

  /** A token that was rotated out is gone from both columns once its session has ended or rotated again. */
  lemma ForgottenToken(d: Desk, id: nat, a: nat)
    requires Reachable(d) && id in d.issued && id in d.rows && a + 1 < |d.issued[id]|
    requires a + 2 < |d.issued[id]| || d.rows[id].revokedAt.Some?
    ensures forall i :: !Current(d.rows, i, d.issued[id][a]) && !Retired(d.rows, i, d.issued[id][a])
  {
    ReachableIsChained(d);
    forall i ensures !Current(d.rows, i, d.issued[id][a]) && !Retired(d.rows, i, d.issued[id][a]) {
      if i in d.rows {
        assert ChainOf(d.rows[i], d.issued[i], d.accepted[i]) && RowWhole(d.rows[i], d.clock);
      }
    }
  }

  lemma LastRetired(d: Desk, id: nat)
    requires Chained(d) && id in d.rows && d.rows[id].revokedAt == None && |d.issued[id]| >= 2
    ensures Retired(d.rows, id, d.issued[id][|d.issued[id]| - 2])
  {
    assert ChainOf(d.rows[id], d.issued[id], d.accepted[id]);
  }

  /**
    Detection reaches exactly one generation back: replaying a token that was rotated
    out changes any session at all if and only if its own session is still live and
    the token is the last one retired.
   */
  lemma DetectionReachesOneGeneration(d: Desk, e: Event, id: nat, a: nat)
    requires Reachable(d) && e.request.Refresh?
    requires id in d.issued && a + 1 < |d.issued[id]| && e.request.token == d.issued[id][a]
    requires id in d.rows
    ensures Take(d, e).rows != d.rows <==> d.rows[id].revokedAt == None && a + 2 == |d.issued[id]|
  {
    if d.rows[id].revokedAt == None && a + 2 == |d.issued[id]| {
      assert Retired(d.rows, id, e.request.token) by {
        ReachableIsChained(d);
        LastRetired(d, id);
      }
      RetiredTokenEndsEverySession(d, e, id);
      assert id in Take(d, e).rows ==> Take(d, e).rows[id] != d.rows[id] by {
        assert NoneLeft(Take(d, e).rows, d.rows[id].admin);
      }
    } else {
      ForgottenToken(d, id, a);
      AbsentTokenChangesNothing(d, e);
    }
  }
}
