/** The session repository and the services on it, one Redis command after another. */
module SessionServices {
  import opened Options
  import opened RedisStore
  import opened RedisClients
  import opened Sessions

  datatype Row = Row(sid: string, ip: string, agent: string, current: bool, created: string)

  predicate HasFields(f: map<string, string>) {
    "ip" in f && "user_agent" in f && "created_at" in f
  }

  function LiveListed(s: Store<Key>, user: string, now: nat): set<string> {
    set sid <- GetMembers(s, IndexKey(user), now) | GetHash(s, SessionKey(sid), now) != map[]
  }

  predicate Distinct(order: seq<string>) {
    forall i, j :: 0 <= i < j < |order| ==> order[i] != order[j]
  }

  predicate IsRow(row: Row, sid: string, s: Store<Key>, current: string, now: nat) {
    var fields := GetHash(s, SessionKey(sid), now);
    HasFields(fields) && row == Row(sid, fields["ip"], fields["user_agent"], sid == current, fields["created_at"])
  }

  predicate RowsAre(rows: seq<Row>, order: seq<string>, s: Store<Key>, current: string, now: nat) {
    |rows| == |order| && forall i :: 0 <= i < |rows| ==> IsRow(rows[i], order[i], s, current, now)
  }

  /** One row for each live session in the index of the user. */
  ghost predicate Lists(rows: seq<Row>, order: seq<string>, s: Store<Key>, user: string, current: string, now: nat) {
    Enumerates(order, LiveListed(s, user, now)) && Distinct(order) && RowsAre(rows, order, s, current, now)
  }

  class SessionRepository {
    const redis: Redis<Key>
    const config: Config

    constructor (redis: Redis<Key>, config: Config)
      ensures this.redis == redis && this.config == config
    {
      this.redis := redis;
      this.config := config;
    }

    method AddUserSession(sid: string, x: Session, now: nat)
      modifies redis
      ensures redis.db == Sessions.AddUserSession(config, old(redis.db), sid, x, now)
    {
      redis.SetFields(SessionKey(sid), Fields(config, x), now);
      redis.ExpireIn(SessionKey(sid), now, config.ttl);
      redis.AddMember(IndexKey(x.user), sid, now);
    }

    method UpdateRefreshTokenHash(sid: string, hash: string, now: nat)
      modifies redis
      ensures redis.db == Expire(HSet(old(redis.db), SessionKey(sid), map["refresh_token_hash" := hash], now),
                                 SessionKey(sid), now, config.ttl)
    {
      redis.SetFields(SessionKey(sid), map["refresh_token_hash" := hash], now);
      redis.ExpireIn(SessionKey(sid), now, config.ttl);
    }

    method GetUserSession(sid: string, now: nat) returns (fields: map<string, string>)
      ensures fields == GetHash(redis.db, SessionKey(sid), now)
    {
      fields := redis.HGetAll(SessionKey(sid), now);
    }

    /** Deletes the session, the other services' cached verdicts on it, and its index entry. */
    method DeleteUserSession(sid: string, now: nat)
      modifies redis
      ensures redis.db == DeleteSession(old(redis.db), sid, now)
    {
      var fields := GetUserSession(sid, now);
      if fields == map[] {
        return;
      }
      redis.Remove(SessionKey(sid));
      redis.Remove(ActionsCache(sid));
      redis.Remove(AnalyticsCache(sid));
      assert redis.db == DropKeys(old(redis.db), sid);
      if "user_id" in fields && fields["user_id"] != "" {
        redis.RemoveMember(IndexKey(fields["user_id"]), sid, now);
      }
    }

    method DeleteSessionsOnDevice(user: string, d: Device, now: nat)
      modifies redis
      ensures exists order :: Enumerates(order, Matching(old(redis.db), user, d, now)) &&
                              redis.db == DeleteEach(old(redis.db), order, now)
    {
      ghost var before := redis.db;
      ghost var order: seq<string> := [];
      var sids := redis.SMembers(IndexKey(user), now);
      var sessions: map<string, map<string, string>> := map[];
      var unread := sids;
      while unread != {}
        invariant unread <= sids && sessions.Keys == sids - unread && redis.db == before
        invariant forall sid <- sessions :: sessions[sid] == GetHash(before, SessionKey(sid), now)
        decreases unread
      {
        var sid :| sid in unread;
        var fields := GetUserSession(sid, now);
        sessions := sessions[sid := fields];
        unread := unread - {sid};
      }
      var rest := sids;
      while rest != {}
        invariant rest <= sids
        invariant forall sid :: sid in order <==> sid in sids - rest && OnDevice(before, sid, d, now)
        invariant Distinct(order)
        invariant redis.db == DeleteEach(before, order, now)
        decreases rest
      {
        var sid :| sid in rest;
        var fields := sessions[sid];
        if "ip" in fields && fields["ip"] == d.ip && "user_agent" in fields && fields["user_agent"] == d.agent {
          assert sid !in order;
          DeleteUserSession(sid, now);
          assert (order + [sid])[..|order|] == order;
          order := order + [sid];
        }
        rest := rest - {sid};
      }
      assert Enumerates(order, Matching(before, user, d, now));
    }

    /** The second half of revoking all sessions of a user, with the ids read in the first. */
    method WipeSessions(user: string, sids: set<string>)
      modifies redis
      ensures redis.db == WipeKeys(old(redis.db), user, sids)
      ensures AllRevoked(old(redis.db), redis.db, user, sids)
    {
      ghost var before := redis.db;
      WipeRevokes(before, user, sids);
      if sids == {} {
        return;
      }
      UnlistedNone(before);
      UnlistedAll(before, user, sids);
      var rest := sids;
      while rest != {}
        invariant rest <= sids
        invariant redis.db == Unlisted(before, sids - rest)
        decreases rest
      {
        var sid :| sid in rest;
        UnlistedMore(before, sids - rest, sid);
        assert sids - (rest - {sid}) == sids - rest + {sid};
        redis.Remove(SessionKey(sid));
        redis.Remove(ActionsCache(sid));
        redis.Remove(AnalyticsCache(sid));
        rest := rest - {sid};
      }
      assert sids - rest == sids;
      redis.Remove(IndexKey(user));
    }

    method DeleteAllUserSessions(user: string, now: nat)
      modifies redis
      ensures redis.db == WipeKeys(old(redis.db), user, GetMembers(old(redis.db), IndexKey(user), now))
      ensures AllRevoked(old(redis.db), redis.db, user, GetMembers(old(redis.db), IndexKey(user), now))
    {
      var sids := redis.SMembers(IndexKey(user), now);
      WipeSessions(user, sids);
    }

    /** The user's live sessions, each once, in the order in which Redis lists the ids. */
    method GetUserSessions(user: string, current: string, now: nat) returns (rows: seq<Row>)
      requires forall sid <- LiveListed(redis.db, user, now) :: HasFields(GetHash(redis.db, SessionKey(sid), now))
      ensures exists order :: Lists(rows, order, redis.db, user, current, now)
    {
      var sids := redis.SMembers(IndexKey(user), now);
      rows := [];
      ghost var order: seq<string> := [];
      var rest := sids;
      while rest != {}
        invariant rest <= sids
        invariant forall sid :: sid in order <==> sid in LiveListed(redis.db, user, now) && sid !in rest
        invariant Distinct(order)
        invariant RowsAre(rows, order, redis.db, current, now)
        decreases rest
      {
        var sid :| sid in rest;
        var fields := redis.HGetAll(SessionKey(sid), now);
        if fields != map[] {
          assert sid in LiveListed(redis.db, user, now);
          rows := rows + [Row(sid, fields["ip"], fields["user_agent"], sid == current, fields["created_at"])];
          order := order + [sid];
        }
        rest := rest - {sid};
      }
      assert Lists(rows, order, redis.db, user, current, now);
    }
  }

  class SessionService {
    const repo: SessionRepository

    constructor (repo: SessionRepository)
      ensures this.repo == repo
    {
      this.repo := repo;
    }

    method AddSession(sid: string, x: Session, now: nat)
      modifies repo.redis
      ensures exists order :: LoginStep(repo.config, old(repo.redis.db), sid, x, now, order, repo.redis.db)
    {
      ghost var before := repo.redis.db;
      repo.DeleteSessionsOnDevice(x.user, x.device, now);
      ghost var order :| Enumerates(order, Matching(before, x.user, x.device, now))
          && repo.redis.db == DeleteEach(before, order, now);
      repo.AddUserSession(sid, x, now);
      assert LoginStep(repo.config, before, sid, x, now, order, repo.redis.db);
    }

    /** A missing session has no token hash, which is an error like a different one. */
    method VerifySession(sid: string, token: string, now: nat) returns (ok: bool)
      ensures ok == Verifies(repo.config, repo.redis.db, sid, token, now)
    {
      var session := repo.GetUserSession(sid, now);
      ok := "refresh_token_hash" in session && session["refresh_token_hash"] == repo.config.hash(token);
    }

    method RotateRefreshToken(sid: string, token: string, now: nat)
      modifies repo.redis
      ensures repo.redis.db == UpdateTokenHash(repo.config, old(repo.redis.db), sid, token, now)
    {
      repo.UpdateRefreshTokenHash(sid, repo.config.hash(token), now);
    }

    method DeleteSession(sid: string, now: nat)
      modifies repo.redis
      ensures repo.redis.db == Sessions.DeleteSession(old(repo.redis.db), sid, now)
    {
      repo.DeleteUserSession(sid, now);
    }

    method DeleteAllSessions(user: string, now: nat)
      modifies repo.redis
      ensures repo.redis.db == WipeKeys(old(repo.redis.db), user, GetMembers(old(repo.redis.db), IndexKey(user), now))
      ensures AllRevoked(old(repo.redis.db), repo.redis.db, user,
                         GetMembers(old(repo.redis.db), IndexKey(user), now))
    {
      repo.DeleteAllUserSessions(user, now);
    }
  }

  /** What a token says when its signature, its lifetime and its keys are in order. */
  datatype Payload = Payload(kind: string, sid: string, user: string)

  datatype Refresh = BadToken | WrongType | Refused | Refreshed

  class AuthService {
    const sessions: SessionService

    constructor (sessions: SessionService)
      ensures this.sessions == sessions
    {
      this.sessions := sessions;
    }

    /** Verifies, and later rotates, with nothing else on Redis in between. */
    method RefreshToken(decoded: Option<Payload>, token: string, newToken: string, verified: nat, rotated: nat)
      returns (r: Refresh)
      requires verified <= rotated
      modifies sessions.repo.redis
      ensures r.BadToken? <==> decoded.None?
      ensures r.WrongType? <==> decoded.Some? && decoded.value.kind != "refresh"
      ensures r.Refreshed? <==>
                && decoded.Some? && decoded.value.kind == "refresh"
                && Verifies(sessions.repo.config, old(sessions.repo.redis.db), decoded.value.sid, token, verified)
      ensures sessions.repo.redis.db ==
              if r.Refreshed?
              then UpdateTokenHash(sessions.repo.config, old(sessions.repo.redis.db), decoded.value.sid, newToken,
                                   rotated)
              else old(sessions.repo.redis.db)
    {
      if decoded.None? {
        return BadToken;
      }
      if decoded.value.kind != "refresh" {
        return WrongType;
      }
      var ok := sessions.VerifySession(decoded.value.sid, token, verified);
      if !ok {
        return Refused;
      }
      sessions.RotateRefreshToken(decoded.value.sid, newToken, rotated);
      return Refreshed;
    }

    /** Deletes the session of the token; a token that does not decode does nothing. */
    method RevokeRefreshToken(decoded: Option<Payload>, now: nat)
      modifies sessions.repo.redis
      ensures sessions.repo.redis.db ==
              if decoded.Some? then Sessions.DeleteSession(old(sessions.repo.redis.db), decoded.value.sid, now)
              else old(sessions.repo.redis.db)
    {
      if decoded.Some? {
        sessions.DeleteSession(decoded.value.sid, now);
      }
    }

    /** Deletes every session in the index of the token's user. */
    method RevokeAllRefreshTokens(decoded: Option<Payload>, now: nat)
      modifies sessions.repo.redis
      ensures sessions.repo.redis.db ==
              if decoded.None? then old(sessions.repo.redis.db)
              else
                var user := decoded.value.user;
                WipeKeys(old(sessions.repo.redis.db), user,
                         GetMembers(old(sessions.repo.redis.db), IndexKey(user), now))
      ensures decoded.Some? ==>
                AllRevoked(old(sessions.repo.redis.db), sessions.repo.redis.db, decoded.value.user,
                           GetMembers(old(sessions.repo.redis.db), IndexKey(decoded.value.user), now))
    {
      if decoded.Some? {
        sessions.DeleteAllSessions(decoded.value.user, now);
      }
    }
  }
}
