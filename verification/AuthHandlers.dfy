/** The session endpoints over a token table that they update in place. */
module AuthHandlers {
  import opened Executions
  import opened Sessions

  class TokenTable {
    var now: Time
    var rows: Tokens
    /** The rows to go back to, while a transaction is open. */
    var undo: Option<Tokens>
    ghost var parent: map<Jti, Jti>

    constructor ()
      ensures Now() == EMPTY && undo.None?
    {
      now, rows, undo, parent := 0, map[], None, map[];
    }

    ghost function Now(): State
      reads this
    {
      State(now, rows, parent)
    }

    method Begin()
      requires undo.None?
      modifies this`undo
      ensures undo == Some(rows)
    {
      undo := Some(rows);
    }

    /** Deferred by Refresh: it undoes an open transaction and does nothing after a commit. */
    method Rollback()
      modifies this`rows, this`undo
      ensures undo.None? && rows == if old(undo).Some? then old(undo).value else old(rows)
    {
      if undo.Some? {
        rows, undo := undo.value, None;
      }
    }

    method Commit(fate: Write) returns (ok: bool)
      requires undo.Some?
      modifies this`rows, this`undo
      ensures undo.None? && (ok <==> fate.Heard?)
      ensures rows == if fate.Lost? then old(undo).value else old(rows)
    {
      if fate.Lost? {
        rows := undo.value;
      }
      undo := None;
      ok := fate.Heard?;
    }

    /** The rotating UPDATE; it returns the owner of the row it revoked. */
    method Redeem(jti: Jti, user: User) returns (owner: Option<User>)
      modifies this`rows
      ensures owner.Some? <==> Redeemable(old(rows), now, jti, user)
      ensures rows == if owner.Some? then RevokeOne(old(rows), jti, now) else old(rows)
    {
      owner := None;
      if jti in rows && rows[jti].user == user && rows[jti].revokedAt.None? && rows[jti].expiresAt > now {
        owner := Some(user);
        rows := rows[jti := rows[jti].(revokedAt := Some(now))];
      }
    }

    method CreateRefreshToken(jti: Jti, user: User, clock: Time) returns (ok: bool)
      modifies this`rows
      ensures ok <==> jti !in old(rows)
      ensures rows == if ok then old(rows)[jti := NewToken(user, clock)] else old(rows)
    {
      ok := jti !in rows;
      if ok {
        rows := rows[jti := NewToken(user, clock)];
      }
    }

    method RevokeRefreshToken(jti: Jti)
      modifies this`rows
      ensures rows == RevokeOne(old(rows), jti, now)
    {
      if jti in rows && rows[jti].revokedAt.None? {
        rows := rows[jti := rows[jti].(revokedAt := Some(now))];
      }
    }

    method RevokeAllRefreshTokens(user: User) returns (affected: nat)
      modifies this`rows
      ensures rows == RevokeAll(old(rows), user, now)
      ensures affected == |Live(old(Now()), user)|
    {
      var hit := set j | j in rows && rows[j].user == user && rows[j].revokedAt.None?;
      rows := map j | j in rows :: if j in hit then rows[j].(revokedAt := Some(now)) else rows[j];
      affected := |hit|;
      assert hit == Live(old(Now()), user);
      assert rows == RevokeAll(old(rows), user, now);
    }
  }

  datatype Lookup = Found | Missing | Broken

  /** Which calls of one Refresh succeed. */
  datatype RefreshLuck = RefreshLuck(
    begin: bool, update: bool, user: Lookup, memberships: bool, signAccess: bool, signRefresh: bool,
    insert: bool, commit: Write)

  predicate Healthy(luck: RefreshLuck) {
    && luck.begin && luck.update && luck.user.Found? && luck.memberships
    && luck.signAccess && luck.signRefresh && luck.insert
  }

  /** A presented token: its subject and jti, once the signature and both ids have parsed. */
  datatype Presented = Absent | Garbled | Presented(user: User, jti: Jti)

  datatype Reply = Reply(code: int, minted: Option<Jti>)

  /** The statements between Begin and Commit; an answer other than 0 leaves through the rollback. */
  method RotateInTx(db: TokenTable, user: User, jti: Jti, luck: RefreshLuck, next: Jti, clock: Time)
    returns (code: int)
    requires luck.begin
    modifies db`rows
    ensures code in {0, 401, 500}
    ensures code == 0 <==> Rotates(old(db.Now()), Rotate(jti, user, next, clock)) && Healthy(luck)
    ensures code == 0 ==> db.rows == RevokeOne(old(db.rows), jti, db.now)[next := NewToken(user, clock)]
    ensures code == 401 <==> luck.update && (!Redeemable(old(db.rows), db.now, jti, user) || luck.user.Missing?)
  {
    if !luck.update {
      return 500;
    }
    var owner := db.Redeem(jti, user);
    if owner.None? || luck.user.Missing? {
      return 401;
    }
    if luck.user.Broken? || !luck.memberships || !luck.signAccess || !luck.signRefresh || !luck.insert {
      return 500;
    }
    var ok := db.CreateRefreshToken(next, user, clock);
    return if ok then 0 else 500;
  }

  /** Whether one Refresh reaches a commit that stands. */
  predicate Commits(s: State, st: Step, luck: RefreshLuck) {
    Rotates(s, st) && Healthy(luck) && !luck.commit.Lost?
  }

  /** A Refresh with a fresh token, made within seven days and not taken back since, goes through if every call does. */
  lemma FreshTokenRefreshes(s: State, st: Step, more: seq<Step>, j: Jti, user: User, clock: Time,
                            luck: RefreshLuck, next: Jti, now: Time)
    requires Makes(s, st, j, user, clock) && Redeemed(Exec(s, st), more, j) == 0
    requires forall i | 0 <= i < |more| :: !TakesBack(more[i], j, user)
    requires Run(Exec(s, st), more).now < clock + 604_800_000_000_000 && next !in Run(Exec(s, st), more).tokens
    requires Healthy(luck) && luck.commit.Heard?
    ensures Commits(Run(Exec(s, st), more), Rotate(j, user, next, now), luck)
  {
    FreshTokenWorks(s, st, more, j, user, clock, user);
  }

  /**
   * Rotate the presented token. 200 is answered exactly when the whole rotation committed and was
   * heard to; any other answer changes nothing, except in the one case that the commit stood and
   * its reply was lost.
   */
  method Refresh(db: TokenTable, token: Presented, luck: RefreshLuck, next: Jti, clock: Time) returns (r: Reply)
    requires db.undo.None?
    modifies db
    ensures db.undo.None? && r.code in {200, 400, 401, 500}
    ensures (r.minted == if r.code == 200 then Some(next) else None)
    ensures !token.Presented? ==> r.code in {400, 401} && db.Now() == old(db.Now())
    ensures token.Presented? ==>
              var st := Rotate(token.jti, token.user, next, clock);
              && (r.code == 200 <==> Commits(old(db.Now()), st, luck) && luck.commit.Heard?)
              && db.Now() == (if Commits(old(db.Now()), st, luck) then Exec(old(db.Now()), st) else old(db.Now()))
              && (r.code == 401 <==> luck.begin && luck.update
                                     && (|| !Redeemable(old(db.rows), old(db.now), token.jti, token.user)
                                         || luck.user.Missing?))
  {
    r := Reply(500, None);
    if !token.Presented? {
      r := Reply(if token.Absent? then 400 else 401, None);
      return;
    }
    if !luck.begin {
      return;
    }
    db.Begin();
    var code := RotateInTx(db, token.user, token.jti, luck, next, clock);
    if code != 0 {
      db.Rollback();
      r := Reply(code, None);
      return;
    }
    var ok := db.Commit(luck.commit);
    if !luck.commit.Lost? {
      db.parent := db.parent[next := token.jti];
    }
    db.Rollback();
    if ok {
      r := Reply(200, Some(next));
    }
  }

  /** Sign-up and login: open a session for a user whose id and memberships resolved. */
  method WriteSession(db: TokenTable, code: int, user: Option<User>, resolved: bool, insert: Write,
                      jti: Jti, clock: Time)
    returns (r: Reply)
    requires db.undo.None? && code in {200, 201}
    modifies db`rows
    ensures var lands := user.Some? && resolved && !insert.Lost?;
            && db.Now() == (if lands then Exec(old(db.Now()), Open(jti, user.value, clock)) else old(db.Now()))
            && (r == Reply(code, Some(jti)) <==> lands && insert.Heard? && jti !in old(db.rows))
    ensures r != Reply(code, Some(jti)) ==> r == Reply(500, None)
  {
    r := Reply(500, None);
    if user.None? || !resolved || insert.Lost? {
      return;
    }
    var ok := db.CreateRefreshToken(jti, user.value, clock);
    if ok && insert.Heard? {
      r := Reply(code, Some(jti));
    }
  }

  /** Always 200, whether a jti could be read from the body or not and whatever became of the revocation. */
  method Logout(db: TokenTable, jti: Option<Jti>, lands: bool) returns (code: int)
    modifies db`rows
    ensures code == 200
    ensures db.Now() == if jti.Some? && lands then Exec(old(db.Now()), Step.Logout(jti.value)) else old(db.Now())
  {
    if jti.Some? && lands {
      db.RevokeRefreshToken(jti.value);
    }
    code := 200;
  }

  /** 200 only when none of the caller's tokens is left live. */
  method LogoutAll(db: TokenTable, user: Option<User>, fate: Write) returns (code: int)
    modifies db`rows
    ensures code in {200, 401, 500} && (code == 401 <==> user.None?) && (code == 200 <==> user.Some? && fate.Heard?)
    ensures db.Now() == if user.Some? && !fate.Lost? then Exec(old(db.Now()), Step.LogoutAll(user.value))
                        else old(db.Now())
    ensures code == 200 ==> Live(db.Now(), user.value) == {}
  {
    if user.None? {
      return 401;
    }
    if !fate.Lost? {
      LogoutAllLeavesNone(db.Now(), user.value);
      var _ := db.RevokeAllRefreshTokens(user.value);
    }
    code := if fate.Heard? then 200 else 500;
  }
}
