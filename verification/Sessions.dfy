/** Refresh tokens: the table, the transactions that change it, and every order they can come in. */
module Sessions {
  import opened Sets
  import opened Executions

  type Jti = nat
  type User = nat

  const REFRESH_TTL: Time := 7 * 24 * 3600 * SECOND

  datatype Token = Token(user: User, expiresAt: Time, revokedAt: Option<Time>)

  type Tokens = map<Jti, Token>

  /** `parent` remembers which token each rotated token replaced; the program does not store it. */
  datatype State = State(now: Time, tokens: Tokens, parent: map<Jti, Jti>)

  // ----- the statements

  /** The guard of the rotating UPDATE. */
  predicate Redeemable(ts: Tokens, now: Time, jti: Jti, user: User) {
    jti in ts && ts[jti].user == user && ts[jti].revokedAt.None? && ts[jti].expiresAt > now
  }

  function RevokeOne(ts: Tokens, jti: Jti, now: Time): Tokens {
    if jti in ts && ts[jti].revokedAt.None? then ts[jti := ts[jti].(revokedAt := Some(now))] else ts
  }

  function RevokeAll(ts: Tokens, user: User, now: Time): Tokens {
    map j | j in ts :: if ts[j].user == user && ts[j].revokedAt.None? then ts[j].(revokedAt := Some(now)) else ts[j]
  }

  function NewToken(user: User, clock: Time): Token {
    Token(user, clock + REFRESH_TTL, None)
  }

  // ----- the transactions

  /** `clock` is the gateway's, which need not agree with the database's. */
  datatype Step =
    | Open(jti: Jti, user: User, clock: Time)
    | Rotate(jti: Jti, user: User, next: Jti, clock: Time)
    | Logout(jti: Jti)
    | LogoutAll(user: User)
    | Tick(elapsed: nat)

  /** Whether a rotation goes through: the new jti must be free, as it is the primary key. */
  predicate Rotates(s: State, st: Step) {
    st.Rotate? && Redeemable(s.tokens, s.now, st.jti, st.user) && st.next !in s.tokens
  }

  function Exec(s: State, st: Step): State {
    match st
    case Open(jti, user, clock) =>
      if jti in s.tokens then s else s.(tokens := s.tokens[jti := NewToken(user, clock)])
    case Rotate(jti, user, next, clock) =>
      if Rotates(s, st) then
        s.(tokens := RevokeOne(s.tokens, jti, s.now)[next := NewToken(user, clock)], parent := s.parent[next := jti])
      else s
    case Logout(jti) => s.(tokens := RevokeOne(s.tokens, jti, s.now))
    case LogoutAll(user) => s.(tokens := RevokeAll(s.tokens, user, s.now))
    case Tick(elapsed) => s.(now := s.now + elapsed)
  }

  function Run(s: State, steps: seq<Step>): State {
    if steps == [] then s else Exec(Run(s, steps[..|steps| - 1]), steps[|steps| - 1])
  }

  // ----- what every transaction keeps

  predicate Revoked(s: State, j: Jti) {
    j in s.tokens && s.tokens[j].revokedAt.Some?
  }

  /** Lineage: a token with a successor is revoked, has only that one, and shares its user with it. */
  ghost predicate Inv(s: State) {
    && (forall c | c in s.parent ::
          c in s.tokens && Revoked(s, s.parent[c]) && s.tokens[c].user == s.tokens[s.parent[c]].user)
    && (forall c, d | c in s.parent && d in s.parent && s.parent[c] == s.parent[d] :: c == d)
  }

  const EMPTY := State(0, map[], map[])

  /** No transaction drops a token, changes its user or expiry, or undoes a revocation. */
  lemma ExecKeepsToken(s: State, st: Step, j: Jti)
    requires j in s.tokens
    ensures j in Exec(s, st).tokens
    ensures Exec(s, st).tokens[j].user == s.tokens[j].user && Exec(s, st).tokens[j].expiresAt == s.tokens[j].expiresAt
    ensures s.tokens[j].revokedAt.Some? ==> Exec(s, st).tokens[j] == s.tokens[j]
    ensures Exec(s, st).now >= s.now
  {
  }

  /** A token that a step revokes is stamped with the time of that step. */
  lemma RevokedWhen(s: State, st: Step, j: Jti)
    requires j in s.tokens && !Revoked(s, j) && Revoked(Exec(s, st), j)
    ensures Exec(s, st).tokens[j] == s.tokens[j].(revokedAt := Some(s.now))
  {
  }

  lemma ExecKeepsInv(s: State, st: Step)
    requires Inv(s)
    ensures Inv(Exec(s, st))
  {
    var s' := Exec(s, st);
    forall c | c in s'.parent
      ensures c in s'.tokens && Revoked(s', s'.parent[c]) && s'.tokens[c].user == s'.tokens[s'.parent[c]].user
    {
      if c in s.parent {
        ExecKeepsToken(s, st, c);
        ExecKeepsToken(s, st, s.parent[c]);
      }
    }
  }

  lemma {:induction false} RunKeepsInv(s: State, steps: seq<Step>)
    requires Inv(s)
    ensures Inv(Run(s, steps))
  {
    if steps != [] {
      RunKeepsInv(s, steps[..|steps| - 1]);
      ExecKeepsInv(Run(s, steps[..|steps| - 1]), steps[|steps| - 1]);
    }
  }

  /** So the lineage is in order in every reachable state. */
  lemma Reached(steps: seq<Step>)
    ensures Inv(Run(EMPTY, steps))
  {
    RunKeepsInv(EMPTY, steps);
  }

  lemma {:induction false} RunKeepsToken(s: State, steps: seq<Step>, j: Jti)
    requires j in s.tokens
    ensures j in Run(s, steps).tokens
    ensures Run(s, steps).tokens[j].user == s.tokens[j].user
    ensures Run(s, steps).tokens[j].expiresAt == s.tokens[j].expiresAt
    ensures s.tokens[j].revokedAt.Some? ==> Run(s, steps).tokens[j] == s.tokens[j]
    ensures Run(s, steps).now >= s.now
  {
    if steps != [] {
      RunKeepsToken(s, steps[..|steps| - 1], j);
      ExecKeepsToken(Run(s, steps[..|steps| - 1]), steps[|steps| - 1], j);
    }
  }

  /** A token that is revoked or has expired is refused for ever, whoever presents it. */
  lemma NeverAgain(s: State, steps: seq<Step>, j: Jti, user: User)
    requires j in s.tokens && (s.tokens[j].revokedAt.Some? || s.tokens[j].expiresAt <= s.now)
    ensures !Redeemable(Run(s, steps).tokens, Run(s, steps).now, j, user)
  {
    RunKeepsToken(s, steps, j);
  }

  // ----- a token that nobody took back can be used

  /** The step may take token `j` of `user` back; presenting it for rotation is counted by `Redeemed`. */
  predicate TakesBack(st: Step, j: Jti, user: User) {
    st == Logout(j) || st == LogoutAll(user)
  }

  lemma UntouchedStep(s: State, st: Step, j: Jti, user: User)
    requires j in s.tokens && s.tokens[j].user == user && !TakesBack(st, j, user) && !(Rotates(s, st) && st.jti == j)
    ensures j in Exec(s, st).tokens && Exec(s, st).tokens[j] == s.tokens[j]
  {
  }

  lemma {:induction false} UntouchedRun(s: State, steps: seq<Step>, j: Jti, user: User)
    requires j in s.tokens && s.tokens[j].user == user && Redeemed(s, steps, j) == 0
    requires forall i | 0 <= i < |steps| :: !TakesBack(steps[i], j, user)
    ensures j in Run(s, steps).tokens && Run(s, steps).tokens[j] == s.tokens[j]
  {
    if steps != [] {
      var init, last := steps[..|steps| - 1], steps[|steps| - 1];
      assert forall i | 0 <= i < |init| :: init[i] == steps[i];
      UntouchedRun(s, init, j, user);
      UntouchedStep(Run(s, init), last, j, user);
    }
  }

  /** The step makes token `j` for `user`, at a sign-in or by a rotation, with this clock. */
  predicate Makes(s: State, st: Step, j: Jti, user: User, clock: Time) {
    || (st == Open(j, user, clock) && j !in s.tokens)
    || (st.Rotate? && st.next == j && st.user == user && st.clock == clock && Rotates(s, st))
  }

  lemma MadeToken(s: State, st: Step, j: Jti, user: User, clock: Time)
    requires Makes(s, st, j, user, clock)
    ensures j in Exec(s, st).tokens
    ensures Exec(s, st).tokens[j] == Token(user, clock + 604_800_000_000_000, None)
  {
  }

  /**
   * A token that was made at `clock`, and since then neither redeemed nor logged out, can be redeemed by
   * its user, and by nobody else, until seven days later, and not after that.
   */
  lemma FreshTokenWorks(s: State, st: Step, more: seq<Step>, j: Jti, user: User, clock: Time, anyone: User)
    requires Makes(s, st, j, user, clock) && Redeemed(Exec(s, st), more, j) == 0
    requires forall i | 0 <= i < |more| :: !TakesBack(more[i], j, user)
    ensures var s' := Run(Exec(s, st), more);
            Redeemable(s'.tokens, s'.now, j, anyone) <==> anyone == user && s'.now < clock + 604_800_000_000_000
  {
    MadeToken(s, st, j, user, clock);
    UntouchedRun(Exec(s, st), more, j, user);
  }

  // ----- one redemption, one successor

  /** How often `j` is redeemed along a run. */
  function Redeemed(s: State, steps: seq<Step>, j: Jti): nat {
    if steps == [] then 0
    else
      var init, last := steps[..|steps| - 1], steps[|steps| - 1];
      Redeemed(s, init, j) + (if Rotates(Run(s, init), last) && last.jti == j then 1 else 0)
  }

  predicate Child(s: State, c: Jti, p: Jti) {
    c in s.parent && s.parent[c] == p
  }

  lemma ExecKeepsChild(s: State, st: Step, c: Jti, p: Jti)
    requires Inv(s) && Child(s, c, p)
    ensures Child(Exec(s, st), c, p)
  {
  }

  /** A token is redeemed at most once, never after it was revoked, and each redemption leaves a successor. */
  lemma {:induction false} RedeemedAtMostOnce(s: State, steps: seq<Step>, j: Jti)
    requires Inv(s)
    ensures Redeemed(s, steps, j) <= if Revoked(s, j) then 0 else 1
    ensures Redeemed(s, steps, j) == 1 ==> Revoked(Run(s, steps), j) && exists c :: Child(Run(s, steps), c, j)
  {
    if steps != [] {
      var init, last := steps[..|steps| - 1], steps[|steps| - 1];
      var m := Run(s, init);
      RedeemedAtMostOnce(s, init, j);
      if Revoked(s, j) {
        RunKeepsToken(s, init, j);
      }
      if Redeemed(s, init, j) == 1 {
        var c :| Child(m, c, j);
        ExecKeepsToken(m, last, j);
        RunKeepsInv(s, init);
        ExecKeepsChild(m, last, c, j);
      } else if Rotates(m, last) && last.jti == j {
        assert Child(Exec(m, last), last.next, j);
      }
    }
  }

  /** At most one successor, and then the token is revoked, in every reachable state. */
  lemma OneSuccessor(steps: seq<Step>, p: Jti, c: Jti, d: Jti)
    requires Child(Run(EMPTY, steps), c, p) && Child(Run(EMPTY, steps), d, p)
    ensures c == d && Revoked(Run(EMPTY, steps), p)
  {
    Reached(steps);
  }

  /** Nothing is ever minted from a token once it is revoked. */
  lemma {:induction false} NoLateChild(s: State, steps: seq<Step>, c: Jti, p: Jti)
    requires Revoked(s, p) && Child(Run(s, steps), c, p)
    ensures Child(s, c, p)
  {
    if steps != [] {
      RunKeepsToken(s, steps[..|steps| - 1], p);
      NoLateChild(s, steps[..|steps| - 1], c, p);
    }
  }

  // ----- sessions: a token and everything minted from it

  /** Each token of `path` was minted from the one before it. */
  ghost predicate Chain(s: State, path: seq<Jti>) {
    path != [] && forall i {:trigger path[i]} | 0 < i < |path| :: Child(s, path[i], path[i - 1])
  }

  lemma ChainRevoked(s: State, path: seq<Jti>, i: nat)
    requires Inv(s) && Chain(s, path) && i + 1 < |path|
    ensures Revoked(s, path[i])
  {
    assert Child(s, path[i + 1], path[i]);
  }

  /** Two chains that begin with the same token agree as far as both go. */
  lemma {:induction false} ChainsNest(s: State, p: seq<Jti>, q: seq<Jti>, i: nat)
    requires Inv(s) && Chain(s, p) && Chain(s, q) && p[0] == q[0] && i < |p| && i < |q|
    ensures p[i] == q[i]
  {
    if i > 0 {
      ChainsNest(s, p, q, i - 1);
      assert Child(s, p[i], p[i - 1]) && Child(s, q[i], q[i - 1]);
    }
  }

  /** A session never has two live tokens: the live one is the last of its chain. */
  lemma OneLivePerSession(s: State, p: seq<Jti>, q: seq<Jti>)
    requires Inv(s) && Chain(s, p) && Chain(s, q) && p[0] == q[0]
    requires !Revoked(s, p[|p| - 1]) && !Revoked(s, q[|q| - 1])
    ensures p == q
  {
    if |p| < |q| {
      ChainsNest(s, p, q, |p| - 1);
      ChainRevoked(s, q, |p| - 1);
    } else if |q| < |p| {
      ChainsNest(s, p, q, |q| - 1);
      ChainRevoked(s, p, |q| - 1);
    }
    forall i | 0 <= i < |p| && i < |q| ensures p[i] == q[i] {
      ChainsNest(s, p, q, i);
    }
  }

  /** Logging a live token out ends its session: whatever was or will be minted from its root is dead. */
  lemma LogoutEndsSession(s: State, p: seq<Jti>, steps: seq<Step>, q: seq<Jti>)
    requires Inv(s) && Chain(s, p) && p[|p| - 1] in s.tokens && !Revoked(s, p[|p| - 1])
    requires var s' := Run(Exec(s, Logout(p[|p| - 1])), steps);
             Chain(s', q) && q[0] == p[0]
    ensures Revoked(Run(Exec(s, Logout(p[|p| - 1])), steps), q[|q| - 1])
  {
    var s1 := Exec(s, Logout(p[|p| - 1]));
    EndedChain(s, p, s1, steps, q, |q| - 1);
    RunKeepsToken(s1, steps, q[|q| - 1]);
  }

  lemma {:induction false} EndedChain(s: State, p: seq<Jti>, s1: State, steps: seq<Step>, q: seq<Jti>, i: nat)
    requires Inv(s) && Chain(s, p) && p[|p| - 1] in s.tokens && !Revoked(s, p[|p| - 1])
    requires s1 == Exec(s, Logout(p[|p| - 1]))
    requires Chain(Run(s1, steps), q) && q[0] == p[0] && i < |q|
    ensures i < |p| && q[i] == p[i] && Revoked(s1, q[i])
  {
    if i > 0 {
      EndedChain(s, p, s1, steps, q, i - 1);
      assert Child(Run(s1, steps), q[i], q[i - 1]);
      NoLateChild(s1, steps, q[i], q[i - 1]);
      assert i < |p| by {
        assert Child(s, q[i], p[i - 1]) && Revoked(s, p[i - 1]);
      }
      assert Child(s, p[i], p[i - 1]);
    }
    if i + 1 < |p| {
      ChainRevoked(s, p, i);
      ExecKeepsToken(s, Logout(p[|p| - 1]), p[i]);
    }
  }

  // ----- logging out everywhere

  /** The user's tokens that nobody revoked; an expired one still counts. */
  function Live(s: State, user: User): set<Jti> {
    set j | j in s.tokens && s.tokens[j].user == user && s.tokens[j].revokedAt.None?
  }

  lemma LogoutAllLeavesNone(s: State, user: User)
    ensures Live(Exec(s, LogoutAll(user)), user) == {}
  {
  }

  /** No token from before a LogoutAll, nor anything that ever descends from one, refreshes again. */
  lemma LogoutAllEndsSessions(s: State, user: User, steps: seq<Step>, path: seq<Jti>, anyone: User)
    requires Inv(s)
    requires var s' := Run(Exec(s, LogoutAll(user)), steps);
             Chain(s', path) && path[0] in s.tokens && s.tokens[path[0]].user == user
    ensures var s' := Run(Exec(s, LogoutAll(user)), steps);
            path[|path| - 1] in s.tokens && !Redeemable(s'.tokens, s'.now, path[|path| - 1], anyone)
  {
    var s1 := Exec(s, LogoutAll(user));
    ExecKeepsInv(s, LogoutAll(user));
    OldLineage(s1, user, steps, path, |path| - 1);
    NeverAgain(s1, steps, path[|path| - 1], anyone);
  }

  lemma {:induction false} OldLineage(s1: State, user: User, steps: seq<Step>, path: seq<Jti>, i: nat)
    requires Inv(s1) && Live(s1, user) == {}
    requires Chain(Run(s1, steps), path) && path[0] in s1.tokens && s1.tokens[path[0]].user == user && i < |path|
    ensures Revoked(s1, path[i]) && s1.tokens[path[i]].user == user
  {
    if i > 0 {
      OldLineage(s1, user, steps, path, i - 1);
      assert Child(Run(s1, steps), path[i], path[i - 1]);
      NoLateChild(s1, steps, path[i], path[i - 1]);
    }
    assert path[i] !in Live(s1, user);
  }

  // ----- counting live sessions

  /** How many sessions `user` opened along a run. */
  function Opened(s: State, steps: seq<Step>, user: User): nat {
    if steps == [] then 0
    else
      var init, last := steps[..|steps| - 1], steps[|steps| - 1];
      Opened(s, init, user) + Gain(Run(s, init), last, user)
  }

  predicate Quits(st: Step) {
    st.Logout? || st.LogoutAll?
  }

  lemma Trade(a: set<Jti>, x: Jti, y: Jti, b: set<Jti>)
    requires x in a && y !in a && b == a - {x} + {y}
    ensures |b| == |a|
  {
  }

  lemma RotationAt(s: State, st: Step, user: User, j: Jti)
    requires Rotates(s, st)
    ensures j in Live(Exec(s, st), user) <==> (j in Live(s, user) && j != st.jti) || (j == st.next && user == st.user)
  {
  }

  /** A rotation trades one live token for another of the same user. */
  lemma RotationTrades(s: State, st: Step, user: User)
    requires Rotates(s, st)
    ensures |Live(Exec(s, st), user)| == |Live(s, user)|
  {
    var a, b := Live(s, user), Live(Exec(s, st), user);
    forall j
      ensures j in b <==> (j in a && j != st.jti) || (j == st.next && user == st.user)
    {
      RotationAt(s, st, user, j);
    }
    if st.user == user {
      Trade(a, st.jti, st.next, b);
    } else {
      assert st.jti !in a;
      assert b == a;
    }
  }

  lemma OpeningAdds(s: State, st: Step, user: User)
    requires st.Open? && st.jti !in s.tokens
    ensures |Live(Exec(s, st), user)| == |Live(s, user)| + (if st.user == user then 1 else 0)
  {
    var a, b := Live(s, user), Live(Exec(s, st), user);
    if st.user == user {
      assert b == a + {st.jti};
    } else {
      assert b == a;
    }
  }

  lemma QuittingTakes(s: State, st: Step, user: User)
    requires Quits(st)
    ensures |Live(Exec(s, st), user)| <= |Live(s, user)|
  {
    SubsetSize(Live(Exec(s, st), user), Live(s, user));
  }

  /** The session that a step opens for the user, if it does. */
  function Gain(s: State, st: Step, user: User): nat {
    if st.Open? && st.user == user && st.jti !in s.tokens then 1 else 0
  }

  lemma LiveStep(s: State, st: Step, user: User)
    ensures |Live(Exec(s, st), user)| <= |Live(s, user)| + Gain(s, st, user)
    ensures !Quits(st) ==> |Live(Exec(s, st), user)| == |Live(s, user)| + Gain(s, st, user)
  {
    if Rotates(s, st) {
      RotationTrades(s, st, user);
    } else if st.Open? && st.jti !in s.tokens {
      OpeningAdds(s, st, user);
    } else if Quits(st) {
      QuittingTakes(s, st, user);
    }
  }

  lemma {:induction false} LiveAlongRun(s: State, steps: seq<Step>, user: User)
    ensures |Live(Run(s, steps), user)| <= |Live(s, user)| + Opened(s, steps, user)
    ensures (forall i | 0 <= i < |steps| :: !Quits(steps[i])) ==>
              |Live(Run(s, steps), user)| == |Live(s, user)| + Opened(s, steps, user)
  {
    if steps != [] {
      LiveAlongRun(s, steps[..|steps| - 1], user);
      LiveStep(Run(s, steps[..|steps| - 1]), steps[|steps| - 1], user);
    }
  }

  /** Since a user's last LogoutAll there are at most as many live tokens as sessions opened since. */
  lemma LiveBound(s: State, user: User, since: seq<Step>)
    ensures var s1 := Exec(s, LogoutAll(user));
            |Live(Run(s1, since), user)| <= Opened(s1, since, user)
  {
    LogoutAllLeavesNone(s, user);
    LiveAlongRun(Exec(s, LogoutAll(user)), since, user);
  }
}
