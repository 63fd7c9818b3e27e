/**
  The one-time links of src/applications/services/borrower-action-token.service.ts.

  A token is a fresh number and its hash is injective, so the table is keyed by
  the token itself; numbers are handed out in issue order.
 */
module ActionLinks {
  import opened Options
  import opened FiniteSets

  const TTL := 2_592_000_000  // thirty days, for every purpose

  datatype Purpose = BankVerification | AgreementSignature | DepositConfirmation

  datatype Link = Link(
    app: nat,
    purpose: Purpose,
    expiresAt: int,
    consumedAt: Option<int>,
    revokedAt: Option<int>)

  type Links = map<nat, Link>

  datatype Rejection = UnknownToken | Superseded | AlreadyUsed | ExpiredLink

  predicate Outstanding(link: Link) {
    link.consumedAt == None && link.revokedAt == None
  }

  predicate ForPair(link: Link, app: nat, purpose: Purpose) {
    link.app == app && link.purpose == purpose
  }

  /* ----------------------------------------------- one statement, one function */

  function Revoked(links: Links, app: nat, purpose: Purpose, now: int): Links {
    map t | t in links ::
      if ForPair(links[t], app, purpose) && Outstanding(links[t])
      then links[t].(revokedAt := Some(now)) else links[t]
  }

  function Created(links: Links, token: nat, app: nat, purpose: Purpose, now: int): Links {
    links[token := Link(app, purpose, now + TTL, None, None)]
  }

  /** The conditional update takes a row by its id, if nobody has consumed it. */
  predicate Claimable(links: Links, token: nat) {
    token in links && links[token].consumedAt == None
  }

  function Claimed(links: Links, token: nat, now: int): Links {
    if Claimable(links, token) then links[token := links[token].(consumedAt := Some(now))] else links
  }

  function Released(links: Links, token: nat): Links {
    if token in links then links[token := links[token].(consumedAt := None)] else links
  }

  predicate Purgeable(link: Link, olderThan: int) {
    link.expiresAt < olderThan && link.consumedAt == None
  }

  function Purged(links: Links, olderThan: int): Links {
    map t | t in links && !Purgeable(links[t], olderThan) :: links[t]
  }

  /** Why the link read for `token` cannot be used now, if it cannot. */
  function RejectionReason(links: Links, token: nat, purpose: Purpose, now: int): Option<Rejection> {
    if token !in links || links[token].purpose != purpose then Some(UnknownToken)
    else if links[token].revokedAt.Some? then Some(Superseded)
    else if links[token].consumedAt.Some? then Some(AlreadyUsed)
    else if links[token].expiresAt <= now then Some(ExpiredLink)
    else None
  }

  /* ------------------------------------------------------------- the service */

  datatype Redeemed = Redeemed(app: nat) | Rejected(reason: Rejection)

  class TokenService {
    var links: Links
    var next: nat

    ghost predicate Valid()
      reads this
    {
      forall t | t in links :: t < next
    }

    constructor ()
      ensures Valid() && links == map[] && next == 0
    {
      links, next := map[], 0;
    }

    /** Afterwards nothing of the pair is outstanding; what was is superseded, and nothing else is touched. */
    method RevokeOutstanding(app: nat, purpose: Purpose, now: int)
      modifies this`links
      ensures links.Keys == old(links).Keys
      ensures forall t | t in links && ForPair(links[t], app, purpose) :: !Outstanding(links[t])
      ensures forall t | t in links && ForPair(old(links)[t], app, purpose) && Outstanding(old(links)[t]) ::
                links[t] == old(links)[t].(revokedAt := Some(now))
                && RejectionReason(links, t, purpose, now) == Some(Superseded)
      ensures forall t | t in links && !(ForPair(old(links)[t], app, purpose) && Outstanding(old(links)[t])) ::
                links[t] == old(links)[t]
    {
      links := Revoked(links, app, purpose, now);
    }

    /** Supersede whatever is outstanding for the pair, then create the new link. */
    method Issue(app: nat, purpose: Purpose, now: int) returns (token: nat)
      requires Valid()
      modifies this
      ensures Valid() && token == old(next) && next == token + 1
      ensures links == Created(Revoked(old(links), app, purpose, now), token, app, purpose, now)
      ensures forall t | t in links && ForPair(links[t], app, purpose) && Outstanding(links[t]) :: t == token
      ensures RejectionReason(links, token, purpose, now) == None
    {
      ghost var was := links;
      RevokeOutstanding(app, purpose, now);
      assert links == Revoked(was, app, purpose, now);
      token := next;
      next := next + 1;
      links := Created(links, token, app, purpose, now);
    }

    /** Read, check, then claim: alone, the claim cannot lose. */
    method Consume(token: nat, purpose: Purpose, now: int) returns (r: Redeemed)
      modifies this`links
      ensures r.Redeemed? <==> RejectionReason(old(links), token, purpose, now) == None
      ensures r.Redeemed? ==> links == Claimed(old(links), token, now) && r.app == links[token].app
      ensures r.Rejected? ==> links == old(links) && Some(r.reason) == RejectionReason(links, token, purpose, now)
      ensures r.Redeemed? ==> RejectionReason(links, token, purpose, now) == Some(AlreadyUsed)
    {
      var reason := RejectionReason(links, token, purpose, now);
      if reason.Some? {
        return Rejected(reason.value);
      }
      var app := links[token].app;
      var claimed := Claimable(links, token);
      links := Claimed(links, token, now);
      if !claimed {
        return Rejected(AlreadyUsed);
      }
      r := Redeemed(app);
    }

    /** Check a link without spending it. */
    method Verify(token: nat, purpose: Purpose, now: int) returns (r: Redeemed)
      ensures r.Redeemed? <==> RejectionReason(links, token, purpose, now) == None
      ensures r.Redeemed? ==> token in links && r.app == links[token].app
    {
      var reason := RejectionReason(links, token, purpose, now);
      r := if reason.Some? then Rejected(reason.value) else Redeemed(links[token].app);
    }

    method Release(token: nat)
      modifies this`links
      ensures links == Released(old(links), token)
    {
      if token in links {
        links := links[token := links[token].(consumedAt := None)];
      }
    }

    method PurgeExpired(olderThan: int) returns (removed: nat)
      modifies this`links
      ensures links == Purged(old(links), olderThan)
      ensures removed == |old(links)| - |links|
      ensures forall t | t in old(links) && old(links)[t].consumedAt.Some? :: t in links
    {
      var kept := Purged(links, olderThan);
      assert kept.Keys <= links.Keys;
      SubsetSize(kept.Keys, links.Keys);
      removed := |links| - |kept|;
      links := kept;
    }
  }

  /**
    When a link can be redeemed and what its holder is told otherwise: superseded
    before used, used before expired, expired from the thirtieth day on.
   */
  lemma LinkIsGoodIff(links: Links, token: nat, purpose: Purpose, now: int)
    ensures var why := RejectionReason(links, token, purpose, now);
            var known := token in links && links[token].purpose == purpose;
            && (why == None <==> known && Outstanding(links[token]) && now < links[token].expiresAt)
            && (why == Some(UnknownToken) <==> !known)
            && (why == Some(Superseded) <==> known && links[token].revokedAt != None)
            && (why == Some(AlreadyUsed) <==>
                  known && links[token].revokedAt == None && links[token].consumedAt != None)
            && (why == Some(ExpiredLink) <==>
                  known && Outstanding(links[token]) && links[token].expiresAt <= now)
  {
  }

  /** Left alone, an issued link is good for its own purpose, and for thirty days to the millisecond. */
  lemma IssuedLinkLivesThirtyDays(links: Links, token: nat, app: nat, purpose: Purpose, issued: int,
                                  asked: Purpose, now: int)
    ensures RejectionReason(Created(links, token, app, purpose, issued), token, asked, now) == None
            <==> asked == purpose && now < issued + 30 * 86_400_000
  {
  }

  /** A new link supersedes exactly the outstanding ones of its application and purpose, and leaves all others alone. */
  lemma SupersedesIff(links: Links, app: nat, purpose: Purpose, now: int, token: nat)
    requires token in links
    ensures var link, after := links[token], Revoked(links, app, purpose, now);
            && after.Keys == links.Keys
            && after[token] == if link.app == app && link.purpose == purpose && Outstanding(link)
                               then link.(revokedAt := Some(now)) else link
  {
  }

  /** The purge takes a link exactly when nobody used it and it expired before the limit. */
  lemma PurgedIff(links: Links, olderThan: int, token: nat)
    requires token in links
    ensures token !in Purged(links, olderThan) <==>
              links[token].consumedAt == None && links[token].expiresAt < olderThan
    ensures token in Purged(links, olderThan) ==> Purged(links, olderThan)[token] == links[token]
  {
  }

  /** Handing a claimed link back restores the table. */
  lemma ReleaseUndoesClaim(links: Links, token: nat, now: int)
    requires Claimable(links, token)
    ensures Released(Claimed(links, token, now), token) == links
  {
  }
}
