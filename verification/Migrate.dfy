/** The code of Migrate and applyMigration, among replicas that run the same code. */
module Migrate {
  import opened Migrations

  type Schedule = nat -> seq<Step>

  /** Steps of other replicas only. */
  ghost predicate Foreign(env: Schedule, r: nat) {
    forall n, i | 0 <= i < |env(n)| :: env(n)[i].r != r
  }

  lemma ForeignKeeps(s: State, st: Step, r: nat)
    requires r in s.replicas && st.r != r
    ensures r in Exec(s, st).replicas && Exec(s, st).replicas[r] == s.replicas[r] && Exec(s, st).versions == s.versions
  {
  }

  /** The database as one replica sees it: shared with all the others, which move between its calls. */
  class Database {
    const s0: State
    var s: State
    var trace: seq<Step>

    ghost predicate Valid()
      reads this
    {
      Inv(s0) && s == Run(s0, trace) && s.versions == s0.versions
    }

    /** Every state the database comes to is in order. */
    lemma Sound()
      requires Valid()
      ensures Inv(s)
    {
      RunKeepsInv(s0, trace);
    }

    constructor (versions: seq<Version>)
      requires Sorted(versions)
      ensures Valid() && s.versions == versions && s.replicas == map[]
    {
      InitInv(versions);
      s0, s, trace := Init(versions), Init(versions), [];
    }

    method Take(st: Step)
      requires Valid()
      modifies this
      ensures Valid() && s == Exec(old(s), st)
    {
      assert Exec(s, st).versions == s.versions;
      assert (trace + [st])[..|trace|] == trace;
      s, trace := Exec(s, st), trace + [st];
    }

    method Yield(env: Schedule, r: nat)
      requires Valid() && r in s.replicas && Foreign(env, r)
      modifies this
      ensures Valid() && r in s.replicas && s.replicas[r] == old(s.replicas[r])
    {
      var steps := env(|trace|);
      for i := 0 to |steps|
        invariant Valid() && r in s.replicas && s.replicas[r] == old(s.replicas[r])
      {
        ForeignKeeps(s, steps[i], r);
        Take(steps[i]);
      }
    }
  }

  /** What happens to the calls made for one version; `patience` bounds the wait for a blocked INSERT. */
  datatype Luck = Luck(begin: bool, claim: bool, patience: nat, script: bool, commit: Fate)

  predicate Smooth(luck: Luck) {
    luck.begin && luck.claim && luck.script && luck.commit.Heard?
  }

  /** Claim the version: its row is inserted, or was there already and the version is skipped. */
  method ClaimVersion(db: Database, r: nat, luck: Luck, env: Schedule)
    returns (err: bool, claimed: bool, waitedOut: bool)
    requires db.Valid() && r in db.s.replicas && db.s.replicas[r].phase.Begun? && Foreign(env, r)
    requires db.s.replicas[r].next < |db.s.versions|
    modifies db
    ensures db.Valid() && r in db.s.replicas
    ensures var rep := old(db.s.replicas[r]);
            db.s.replicas[r] == if err then rep.(phase := Returned(false))
                                else if claimed then rep.(phase := Claimed)
                                else rep.(next := rep.next + 1, phase := Idle)
    ensures err <==> waitedOut || !luck.claim
  {
    err, claimed, waitedOut := false, false, false;
    var left := luck.patience;
    while Blocked(db.s, r) && left > 0
      invariant db.Valid() && r in db.s.replicas && db.s.replicas[r] == old(db.s.replicas[r])
    {
      db.Yield(env, r);
      left := left - 1;
    }
    waitedOut := Blocked(db.s, r);
    if !luck.claim || waitedOut {
      err := true;
      db.Take(Abort(r));
      return;
    }
    db.Take(Claim(r));
    claimed := db.s.replicas[r].phase.Claimed?;
  }

  /** The script and the commit of a version whose row was inserted. */
  method ScriptAndCommit(db: Database, r: nat, luck: Luck, env: Schedule) returns (err: bool)
    requires db.Valid() && r in db.s.replicas && Foreign(env, r)
    requires db.s.replicas[r].phase.Claimed? && db.s.replicas[r].next < |db.s.versions|
    modifies db
    ensures db.Valid() && r in db.s.replicas && (err <==> !luck.script || !luck.commit.Heard?)
    ensures var rep := old(db.s.replicas[r]);
            if err then db.s.replicas[r].phase == Returned(false) || db.s.replicas[r].phase == Limbo
            else db.s.replicas[r] == rep.(next := rep.next + 1, phase := Idle)
  {
    db.Yield(env, r);
    if !luck.script {
      err := true;
      db.Take(Abort(r));
      return;
    }
    db.Take(RunScript(r));
    db.Yield(env, r);
    db.Take(Commit(r, luck.commit));
    err := !luck.commit.Heard?;
  }

  /** Bring one version in, or find that it is in. */
  method ApplyMigration(db: Database, r: nat, luck: Luck, env: Schedule)
    returns (err: bool, waitedOut: bool, ghost claimed: bool)
    requires db.Valid() && r in db.s.replicas && db.s.replicas[r].phase.Idle? && Foreign(env, r)
    requires db.s.replicas[r].next < db.s.replicas[r].size <= |db.s.versions|
    modifies db
    ensures db.Valid() && r in db.s.replicas
    ensures !err ==> db.s.replicas[r] == old(db.s.replicas[r]).(next := old(db.s.replicas[r]).next + 1)
    ensures err ==> db.s.replicas[r].phase == Returned(false) || db.s.replicas[r].phase == Limbo
    ensures err <==> !luck.begin || waitedOut || !luck.claim || (claimed && !(luck.script && luck.commit.Heard?))
  {
    err, waitedOut, claimed := !luck.begin, false, false;
    if err {
      db.Take(Abort(r));
      return;
    }
    db.Take(Begin(r));
    db.Yield(env, r);
    var inserted;
    err, inserted, waitedOut := ClaimVersion(db, r, luck, env);
    claimed := !err && inserted;
    if !err && inserted {
      err := ScriptAndCommit(db, r, luck, env);
    }
  }

  /** One round of the loop. */
  method ApplyNext(db: Database, r: nat, at: nat, luck: Luck, env: Schedule) returns (err: bool, waitedOut: bool)
    requires db.Valid() && r in db.s.replicas && Foreign(env, r) && at < db.s.replicas[r].size <= |db.s.versions|
    requires db.s.replicas[r] == Replica(db.s.replicas[r].size, at, Idle)
    modifies db
    ensures db.Valid() && r in db.s.replicas
    ensures !err ==> db.s.replicas[r] == Replica(old(db.s.replicas[r]).size, at + 1, Idle) && luck.begin && luck.claim
    ensures err ==> waitedOut || !Smooth(luck)
  {
    db.Yield(env, r);
    ghost var claimed;
    err, waitedOut, claimed := ApplyMigration(db, r, luck, env);
  }

  /** The loop over the versions, each with its own luck; `at` is the one that failed, if one did. */
  method ApplyAll(db: Database, r: nat, luck: seq<Luck>, env: Schedule) returns (err: bool, waitedOut: bool, at: nat)
    requires db.Valid() && r in db.s.replicas && db.s.replicas[r] == Replica(|luck|, 0, Idle)
    requires |luck| <= |db.s.versions| && Foreign(env, r)
    modifies db
    ensures db.Valid() && r in db.s.replicas
    ensures !err ==> db.s.replicas[r] == Replica(|luck|, |luck|, Idle)
    ensures !err ==> forall i | 0 <= i < |luck| :: luck[i].begin && luck[i].claim
    ensures err ==> at < |luck| && (waitedOut || !Smooth(luck[at]))
  {
    err, waitedOut, at := false, false, 0;
    while at < |luck|
      invariant at <= |luck| && db.Valid() && r in db.s.replicas && db.s.replicas[r] == Replica(|luck|, at, Idle)
      invariant forall i | 0 <= i < at :: luck[i].begin && luck[i].claim
    {
      err, waitedOut := ApplyNext(db, r, at, luck[at], env);
      if err {
        return;
      }
      at := at + 1;
    }
  }

  /**
   * A start-up run over as many versions as there are entries in `luck`. Nil means they are all applied,
   * and that no claim had failed; an error means that some call failed or a wait for another replica was
   * given up.
   */
  method Migrate(db: Database, r: nat, tableOk: bool, luck: seq<Luck>, env: Schedule)
    returns (err: bool, waitedOut: bool)
    requires db.Valid() && r !in db.s.replicas && |luck| <= |db.s.versions| && Foreign(env, r)
    modifies db
    ensures db.Valid() && r in db.s.replicas
    ensures !err ==> db.s.replicas[r] == Replica(|luck|, |luck|, Returned(true))
    ensures !err ==> db.s0.versions[..|luck|] <= db.s.log
    ensures err ==> !tableOk || waitedOut || exists i :: 0 <= i < |luck| && !Smooth(luck[i])
    ensures !err ==> tableOk && forall i | 0 <= i < |luck| :: luck[i].begin && luck[i].claim
  {
    waitedOut := false;
    db.Take(Start(r, |luck|, tableOk));
    err := !tableOk;
    if err {
      return;
    }
    var at;
    err, waitedOut, at := ApplyAll(db, r, luck, env);
    if err {
      return;
    }
    db.Take(Done(r));
    db.Sound();
  }

  // ----- the list

  datatype Entry = Entry(name: Version, isDir: bool)

  predicate Ascending(entries: seq<Entry>) {
    forall i, j | 0 <= i < j < |entries| :: Less(entries[i].name, entries[j].name)
  }

  /** The files of a sorted directory listing: all of them, still in order. */
  method Versions(entries: seq<Entry>) returns (versions: seq<Version>)
    requires Ascending(entries)
    ensures Sorted(versions)
    ensures forall v :: v in versions <==> exists i :: 0 <= i < |entries| && entries[i] == Entry(v, false)
  {
    versions := [];
    for i := 0 to |entries|
      invariant Sorted(versions)
      invariant versions != [] ==> exists j :: 0 <= j < i && entries[j].name == versions[|versions| - 1]
      invariant forall v :: v in versions <==> exists j :: 0 <= j < i && entries[j] == Entry(v, false)
    {
      if !entries[i].isDir {
        ghost var before := versions;
        versions := versions + [entries[i].name];
        assert entries[i] == Entry(entries[i].name, false);
        forall v ensures v in versions <==> exists j :: 0 <= j < i + 1 && entries[j] == Entry(v, false) {
          if v in before {
            var j :| 0 <= j < i && entries[j] == Entry(v, false);
          }
        }
      }
    }
  }
}
