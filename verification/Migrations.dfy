/** Schema migrations run by any number of gateway replicas at once, each of which may die at any point. */
module Migrations {

  type Version = string

  /** Lexical order of file names. */
  predicate Less(a: Version, b: Version) {
    b != "" && (a == "" || a[0] < b[0] || (a[0] == b[0] && Less(a[1..], b[1..])))
  }

  /** A directory listing: strictly ascending. */
  predicate Sorted(vs: seq<Version>) {
    forall i {:trigger vs[i]} | 0 < i < |vs| :: Less(vs[i - 1], vs[i])
  }

  /**
   * A replica inside Migrate: working on version number `next` of the first `size` in the list.
   * `Limbo` is one that has given up while its commit request may still arrive.
   */
  datatype Phase = Idle | Begun | Claimed | Applied | Limbo | Returned(ok: bool)

  datatype Replica = Replica(size: nat, next: nat, phase: Phase)

  /** `table` is schema_migrations; `log` lists the scripts in the order in which they committed. */
  datatype State = State(versions: seq<Version>, table: set<Version>, log: seq<Version>, replicas: map<nat, Replica>)

  datatype Fate = Heard | Unheard | InFlight | Lost

  datatype Step =
    | Start(r: nat, size: nat, tableOk: bool)
    | Begin(r: nat)
    | Claim(r: nat)
    | RunScript(r: nat)
    | Commit(r: nat, fate: Fate)
    | LateCommit(r: nat)
    | Abort(r: nat)
    | Done(r: nat)

  predicate Holding(p: Phase) {
    p.Claimed? || p.Applied? || p.Limbo?
  }

  /** Another transaction has inserted the version and not ended: the INSERT waits for it. */
  predicate Blocked(s: State, r: nat)
    requires r in s.replicas && s.replicas[r].next < |s.versions|
  {
    exists q | q in s.replicas ::
      && q != r && Holding(s.replicas[q].phase) && s.replicas[q].next < |s.versions|
      && s.versions[s.replicas[q].next] == s.versions[s.replicas[r].next]
  }

  function Put(s: State, r: nat, rep: Replica): State {
    s.(replicas := s.replicas[r := rep])
  }

  /** The claim and the script's effects become visible together. */
  function Land(s: State, v: Version): State {
    s.(table := s.table + {v}, log := s.log + [v])
  }

  /** Where the INSERT leaves a replica that is inside its transaction. */
  function ClaimResult(s: State, r: nat): Replica
    requires r in s.replicas && s.replicas[r].next < |s.versions|
  {
    var rep := s.replicas[r];
    if s.versions[rep.next] in s.table then rep.(next := rep.next + 1, phase := Idle) // no row affected: skip
    else if Blocked(s, r) then rep
    else rep.(phase := Claimed)
  }

  function AfterCommit(rep: Replica, fate: Fate): Replica {
    match fate
    case Heard => rep.(next := rep.next + 1, phase := Idle)
    case InFlight => rep.(phase := Limbo)
    case Unheard => rep.(phase := Returned(false))
    case Lost => rep.(phase := Returned(false))
  }

  /** One step; a step that is not possible changes nothing. */
  function Exec(s: State, st: Step): State {
    if st.Start? then
      if st.r in s.replicas || st.size > |s.versions| then s
      else Put(s, st.r, Replica(st.size, 0, if st.tableOk then Idle else Returned(false)))
    else if st.r !in s.replicas then s
    else
      var rep := s.replicas[st.r];
      match st
      case Begin(r) => if rep.phase.Idle? && rep.next < rep.size then Put(s, r, rep.(phase := Begun)) else s
      case Claim(r) => if rep.phase.Begun? && rep.next < |s.versions| then Put(s, r, ClaimResult(s, r)) else s
      case RunScript(r) => if rep.phase.Claimed? then Put(s, r, rep.(phase := Applied)) else s
      case Commit(r, fate) =>
        if rep.phase.Applied? && rep.next < |s.versions| then
          Put(if fate.Heard? || fate.Unheard? then Land(s, s.versions[rep.next]) else s, r, AfterCommit(rep, fate))
        else s
      case LateCommit(r) =>
        if rep.phase.Limbo? && rep.next < |s.versions|
        then Put(Land(s, s.versions[rep.next]), r, rep.(phase := Returned(false))) else s
      // an error return, a crash the server has noticed, or a commit that never arrived
      case Abort(r) => if rep.phase.Returned? then s else Put(s, r, rep.(phase := Returned(false)))
      case Done(r) => if rep.phase.Idle? && rep.next == rep.size then Put(s, r, rep.(phase := Returned(true))) else s
      case Start(_, _, _) => s
  }

  function Run(s: State, steps: seq<Step>): State {
    if steps == [] then s else Exec(Run(s, steps[..|steps| - 1]), steps[|steps| - 1])
  }

  // ----- the invariant

  predicate Distinct(vs: seq<Version>) {
    forall i, j | 0 <= i < j < |vs| :: vs[i] != vs[j]
  }

  predicate IsPrefix(s: State) {
    |s.log| <= |s.versions| && s.log == s.versions[..|s.log|]
  }

  ghost predicate InTable(s: State) {
    forall v :: v in s.table <==> v in s.log
  }

  /** Everything before `next` is committed, and a claim is only ever held on the first pending version. */
  predicate ReplicaOk(rep: Replica, versions: nat, done: nat) {
    && rep.next <= rep.size <= versions
    && (!rep.phase.Returned? ==> rep.next <= done)
    && (rep.phase.Begun? || Holding(rep.phase) ==> rep.next < rep.size)
    && (Holding(rep.phase) ==> rep.next == done)
    && (rep.phase == Returned(true) ==> rep.size <= done)
  }

  ghost predicate Inv(s: State) {
    && Distinct(s.versions) && IsPrefix(s) && InTable(s)
    && (forall r | r in s.replicas :: ReplicaOk(s.replicas[r], |s.versions|, |s.log|))
    && (forall q, r | q in s.replicas && r in s.replicas ::
          Holding(s.replicas[q].phase) && Holding(s.replicas[r].phase) ==> q == r)
  }

  function Init(versions: seq<Version>): State {
    State(versions, {}, [], map[])
  }

  lemma {:induction false} LessTrans(a: Version, b: Version, c: Version)
    requires Less(a, b) && Less(b, c)
    ensures Less(a, c) && a != c
    decreases |a|
  {
    if a != "" && a[0] == b[0] && b[0] == c[0] {
      LessTrans(a[1..], b[1..], c[1..]);
    }
  }

  lemma {:induction false} SortedLess(vs: seq<Version>, i: nat, j: nat)
    requires Sorted(vs) && i < j < |vs|
    ensures Less(vs[i], vs[j])
    decreases j
  {
    assert Less(vs[j - 1], vs[j]);
    if i < j - 1 {
      SortedLess(vs, i, j - 1);
      LessTrans(vs[i], vs[j - 1], vs[j]);
    }
  }

  lemma {:induction false} LessIrreflexive(a: Version)
    ensures !Less(a, a)
  {
    if a != "" {
      LessIrreflexive(a[1..]);
    }
  }

  lemma {:induction false} LessAt(a: Version, b: Version, n: nat)
    requires n < |a| && n < |b| && a[..n] == b[..n] && a[n] < b[n]
    ensures Less(a, b)
    decreases n
  {
    if n > 0 {
      assert a[0] == a[..n][0] && b[0] == b[..n][0];
      assert a[1..][..n - 1] == a[..n][1..] && b[1..][..n - 1] == b[..n][1..];
      LessAt(a[1..], b[1..], n - 1);
    }
  }

  /** The embedded scripts, in the order in which they have to run. */
  const SHIPPED: seq<Version> :=
    ["0001_init.sql", "0002_execution_submit.sql", "0003_auth_revocation.sql", "0004_execution_actor.sql",
     "0005_execution_reaper_indexes.sql"]

  lemma SortedFive(a: Version, b: Version, c: Version, d: Version, e: Version)
    requires Less(a, b) && Less(b, c) && Less(c, d) && Less(d, e)
    ensures Sorted([a, b, c, d, e])
  {
  }

  lemma ShippedIsSorted()
    ensures Sorted(SHIPPED)
  {
    LessAt(SHIPPED[0], SHIPPED[1], 3);
    LessAt(SHIPPED[1], SHIPPED[2], 3);
    LessAt(SHIPPED[2], SHIPPED[3], 3);
    LessAt(SHIPPED[3], SHIPPED[4], 3);
    SortedFive(SHIPPED[0], SHIPPED[1], SHIPPED[2], SHIPPED[3], SHIPPED[4]);
    assert SHIPPED == [SHIPPED[0], SHIPPED[1], SHIPPED[2], SHIPPED[3], SHIPPED[4]];
  }

  lemma InitInv(versions: seq<Version>)
    requires Sorted(versions)
    ensures Inv(Init(versions))
  {
    forall i, j | 0 <= i < j < |versions| ensures versions[i] != versions[j] {
      SortedLess(versions, i, j);
      LessIrreflexive(versions[i]);
    }
  }

  /** A version is in the table exactly when its number is below the length of the log. */
  lemma TableIsPrefix(s: State, i: nat)
    requires Distinct(s.versions) && IsPrefix(s) && InTable(s) && i < |s.versions|
    ensures s.versions[i] in s.table <==> i < |s.log|
  {
    if i < |s.log| {
      assert s.log[i] == s.versions[i];
    }
  }

  lemma LandKeepsPrefix(s: State)
    requires IsPrefix(s) && InTable(s) && |s.log| < |s.versions|
    ensures IsPrefix(Land(s, s.versions[|s.log|])) && InTable(Land(s, s.versions[|s.log|]))
  {
  }

  /** A replica that claims and finds no one in its way is the only holder. */
  lemma ClaimOk(s: State, r: nat)
    requires Inv(s) && r in s.replicas && s.replicas[r].phase.Begun?
    ensures ReplicaOk(ClaimResult(s, r), |s.versions|, |s.log|)
    ensures Holding(ClaimResult(s, r).phase) ==> forall q | q in s.replicas && Holding(s.replicas[q].phase) :: q == r
  {
    TableIsPrefix(s, s.replicas[r].next);
  }

  /** A landing commit is the holder's, and nobody else's position depended on it. */
  lemma CommitKeepsInv(s: State, r: nat, rep: Replica, s': State)
    requires Inv(s) && r in s.replicas && Holding(s.replicas[r].phase)
    requires s' == Put(Land(s, s.versions[s.replicas[r].next]), r, rep)
    requires !Holding(rep.phase) && ReplicaOk(rep, |s.versions|, |s.log| + 1)
    ensures Inv(s')
  {
    LandKeepsPrefix(s);
  }

  lemma MoveKeepsInv(s: State, r: nat, rep: Replica)
    requires Inv(s) && ReplicaOk(rep, |s.versions|, |s.log|)
    requires Holding(rep.phase) ==> forall q | q in s.replicas && Holding(s.replicas[q].phase) :: q == r
    ensures Inv(Put(s, r, rep))
  {
  }

  lemma ExecKeepsInv(s: State, st: Step)
    requires Inv(s)
    ensures Inv(Exec(s, st))
  {
    var s' := Exec(s, st);
    if s' != s && !st.Start? {
      var rep := s.replicas[st.r];
      if st.Claim? {
        ClaimOk(s, st.r);
        MoveKeepsInv(s, st.r, ClaimResult(s, st.r));
      } else if st.LateCommit? || (st.Commit? && (st.fate.Heard? || st.fate.Unheard?)) {
        CommitKeepsInv(s, st.r, s'.replicas[st.r], s');
      } else {
        MoveKeepsInv(s, st.r, s'.replicas[st.r]);
        assert s' == Put(s, st.r, s'.replicas[st.r]);
      }
    } else if s' != s {
      MoveKeepsInv(s, st.r, s'.replicas[st.r]);
    }
  }

  lemma {:induction false} RunKeepsInv(s: State, steps: seq<Step>)
    requires Inv(s)
    ensures Inv(Run(s, steps))
  {
    if steps != [] {
      RunKeepsInv(s, steps[..|steps| - 1]);
      ExecKeepsInv(Run(s, steps[..|steps| - 1]), steps[|steps| - 1]);
    }
  }

  // ----- the promises of Migrate

  /** Whatever the replicas do, the committed scripts are a prefix of the sorted list, each once. */
  lemma CommittedIsPrefix(versions: seq<Version>, steps: seq<Step>)
    requires Sorted(versions)
    ensures Run(Init(versions), steps).log <= versions
    ensures Distinct(Run(Init(versions), steps).log)
  {
    InitInv(versions);
    RunKeepsInv(Init(versions), steps);
    RunKeepsVersions(Init(versions), steps);
  }

  lemma {:induction false} RunKeepsVersions(s: State, steps: seq<Step>)
    ensures Run(s, steps).versions == s.versions && s.log <= Run(s, steps).log
  {
    if steps != [] {
      RunKeepsVersions(s, steps[..|steps| - 1]);
    }
  }

  /** A Migrate that returned nil has its whole list applied, then and ever after. */
  lemma NilMeansApplied(versions: seq<Version>, steps: seq<Step>, later: seq<Step>, r: nat)
    requires Sorted(versions)
    requires var s := Run(Init(versions), steps);
             r in s.replicas && s.replicas[r].phase == Returned(true)
    ensures var s := Run(Init(versions), steps);
            s.replicas[r].size <= |versions| && versions[..s.replicas[r].size] <= Run(s, later).log
  {
    var s := Run(Init(versions), steps);
    InitInv(versions);
    RunKeepsInv(Init(versions), steps);
    RunKeepsVersions(Init(versions), steps);
    RunKeepsVersions(s, later);
    assert versions[..s.replicas[r].size] <= s.log;
  }

  /** Two scripts are never in progress at once: a held claim is unique, and is on the first pending version. */
  lemma OneAtATime(versions: seq<Version>, steps: seq<Step>, q: nat, r: nat)
    requires Sorted(versions)
    requires var s := Run(Init(versions), steps);
             q in s.replicas && r in s.replicas && Holding(s.replicas[q].phase) && Holding(s.replicas[r].phase)
    ensures q == r && Run(Init(versions), steps).replicas[r].next == |Run(Init(versions), steps).log|
  {
    InitInv(versions);
    RunKeepsInv(Init(versions), steps);
  }

  /**
   * Whoever a waiting INSERT waits for is the one holder, and whichever way its transaction ends, by
   * an abort or by a commit that lands on time or late, the INSERT then goes on: it claims the version,
   * or finds it applied and skips it.
   */
  lemma BlockedGoesOn(s: State, r: nat, q: nat, st: Step)
    requires Inv(s) && r in s.replicas && s.replicas[r].phase.Begun? && Blocked(s, r)
    requires q in s.replicas && Holding(s.replicas[q].phase)
    requires st.r == q && !Holding(Exec(s, st).replicas[q].phase)
    ensures q != r && !Blocked(Exec(s, st), r)
    ensures var rep := Exec(Exec(s, st), Claim(r)).replicas[r];
            && rep == (if Exec(s, st).log == s.log then s.replicas[r].(phase := Claimed)
                       else s.replicas[r].(next := s.replicas[r].next + 1, phase := Idle))
  {
    var s' := Exec(s, st);
    ExecKeepsInv(s, st);
    TableIsPrefix(s', s.replicas[r].next);
    TableIsPrefix(s, s.replicas[r].next);
    assert s'.replicas[r] == s.replicas[r] && s.replicas[r].next == |s.log|;
  }
}
