/** What a kill sweep can and cannot do to the processes of the machine, under the target rules of
    the POSIX.1-2017 System Interfaces page for `kill()`. The snapshots are arbitrary throughout,
    except where a theorem names what it needs of them. */
module SweepTheorems {
  import opened ProcTree

  /** Whether `kill(target, ...)` reaches process `x`. */
  predicate Hits(target: i32, x: Proc, caller: Caller) {
    if target > 0 then x.pid == target
    else if target == 0 then x.pgid == caller.pgid
    else if target == -1 then true
    else x.pgid == -(target as int)
  }

  ghost predicate HitBy(targets: set<i32>, x: Proc, caller: Caller) {
    exists t :: t in targets && Hits(t, x, caller)
  }

  // ---------------------------------------------------------------------------------------------
  // Safety of every signal
  // ---------------------------------------------------------------------------------------------

  /** Whatever the leader and the snapshots, no signal reaches the calling process, its group as a
      whole, init, or "every process". */
  lemma SweepIsSafe(pid: u32, tables: Tables, caller: Caller, run: Sweep)
    requires IsSweep(pid, tables, caller, run)
    ensures pid == 0 || pid == 1 ==> run == Sweep(0, [], [])
    ensures forall k, t :: 0 <= k < |run.rounds| && t in run.rounds[k] ==>
              t != 0 && t != -1 && (t < 0 ==> -(t as int) != caller.pgid)
    ensures forall k, x: Proc :: 0 <= k < |run.rounds| && x.pid == caller.pid && x.pgid == caller.pgid ==>
              !HitBy(run.rounds[k], x, caller)
    ensures forall k, x: Proc :: 0 <= k < |run.rounds| && x.pid == 1 && 0 <= x.pgid <= 1 ==>
              !HitBy(run.rounds[k], x, caller)
  {
  }

  /** The unconditional target of a legal sweep. It is the leader's group for every pid the operating
      system hands out, and a single unrelated process when the pid does not fit a signed word. */
  lemma UnconditionalTarget(pid: u32, tables: Tables, caller: Caller, run: Sweep, k: nat)
    requires IsSweep(pid, tables, caller, run) && k < |run.rounds|
    ensures Permitted(Neg(AsI32(pid)), caller) ==> Neg(AsI32(pid)) in run.rounds[k]
    ensures pid < 0x8000_0000 <==> Neg(AsI32(pid)) == -(pid as int)
    ensures pid >= 0x8000_0000 <==> Neg(AsI32(pid)) == 0x1_0000_0000 - (pid as int)
  {
  }

  // ---------------------------------------------------------------------------------------------
  // What a sweep signals
  // ---------------------------------------------------------------------------------------------

  /** A pid roots no sweep exactly when it is 0 or 1, or wraps to -1 or to the least word; any other
      reads the table, and signals, at least once. */
  lemma SweepsExactly(pid: u32, tables: Tables, caller: Caller, run: Sweep)
    requires IsSweep(pid, tables, caller, run)
    ensures run.rounds == [] <==> pid in {0, 1, 0x8000_0000, 0xFFFF_FFFF}
    ensures run.snapshots == if run.rounds == [] then 0 else |run.rounds| + 1
  {
  }

  /** A running member of the tree, other than the leader, in snapshot `k`. */
  ghost predicate RunningMember(tables: Tables, leader: i32, k: nat, p: Proc) {
    p in tables(k) && p.live && Descends(tables, leader, k, p.pid) && p.pid != leader
  }

  /** Group `g` is named after a member of the tree. */
  ghost predicate TreeGroup(tables: Tables, leader: i32, k: nat, g: i32) {
    g > 1 && Descends(tables, leader, k, g)
  }

  /** Exactly what every round of every sweep signals. After the checks against init, everybody, the
      calling process and its group: the leader's group, always; the pid of a running member outside the
      leader's group and outside any group named after the tree; and a group named after the tree that
      has a running member. Nothing dead, departed or foreign is ever named. */
  lemma RoundSignalsExactly(pid: u32, tables: Tables, caller: Caller, run: Sweep, k: nat, t: i32)
    requires IsSweep(pid, tables, caller, run) && k < |run.rounds|
    requires forall p :: p in tables(k) ==> p.pid > 0
    ensures var leader: i32 := if pid < 0x8000_0000 then pid else pid - 0x1_0000_0000;
            t in run.rounds[k] <==>
              && t !in {-1, 0, 1}
              && (if t < 0 then -(t as int) else t as int) !in {caller.pid as int, caller.pgid as int}
              && (|| t as int == -(leader as int)
                  || (t > 0 && exists p :: RunningMember(tables, leader, k, p) && p.pid == t && p.pgid != leader
                                           && !TreeGroup(tables, leader, k, p.pgid))
                  || (t < 0 && exists p :: RunningMember(tables, leader, k, p) && p.pgid as int == -(t as int)
                                           && TreeGroup(tables, leader, k, p.pgid)))
  {
    var leader := AsI32(pid);
    var known := Tree(tables, leader, k);
    LiveRowsAre(tables(k), known);
    assert run.rounds[k] == RoundTargets(Alive(tables, leader, k), leader, known, caller);
    RoundTargetsAre(Alive(tables, leader, k), leader, known, caller, t);
    AimedExactly(tables, leader, k, known, Alive(tables, leader, k), t);
    if t as int != -0x8000_0000 {
      PermittedExactly(t, caller);
    }
  }

  lemma PermittedExactly(t: i32, caller: Caller)
    requires t as int != -0x8000_0000
    ensures Permitted(t, caller) <==>
              && t !in {-1, 0, 1}
              && (if t < 0 then -(t as int) else t as int) !in {caller.pid as int, caller.pgid as int}
  {
  }

  /** Some row other than the leader's, and outside its group, calls for target `t`. */
  ghost predicate Aimed(alive: seq<Proc>, leader: i32, known: set<i32>, t: i32) {
    exists p :: p in alive && p.pid != leader && p.pgid != leader && RowTarget(p, known) == t
  }

  lemma RoundTargetsAre(alive: seq<Proc>, leader: i32, known: set<i32>, caller: Caller, t: i32)
    requires Signalable(Neg(leader))
    ensures t in RoundTargets(alive, leader, known, caller) <==>
              (t == Neg(leader) || Aimed(alive, leader, known, t)) && Permitted(t, caller)
  {
  }

  lemma AimedExactly(tables: Tables, leader: i32, k: nat, known: set<i32>, alive: seq<Proc>, t: i32)
    requires known == Tree(tables, leader, k) && alive == Alive(tables, leader, k)
    requires forall p :: p in alive <==> p in tables(k) && p.live && p.pid in known
    requires forall p :: p in tables(k) ==> p.pid > 0
    ensures Aimed(alive, leader, known, t) || t as int == -(leader as int) <==>
              || t as int == -(leader as int)
              || (t > 0 && exists p :: RunningMember(tables, leader, k, p) && p.pid == t && p.pgid != leader
                                       && !TreeGroup(tables, leader, k, p.pgid))
              || (t < 0 && exists p :: RunningMember(tables, leader, k, p) && p.pgid as int == -(t as int)
                                       && TreeGroup(tables, leader, k, p.pgid))
  {
    forall p | p in alive && p.pid != leader
      ensures RunningMember(tables, leader, k, p)
      ensures TreeGroup(tables, leader, k, p.pgid) <==> p.pgid > 1 && p.pgid in known
    {
    }
    if p :| RunningMember(tables, leader, k, p) && p.pid == t && p.pgid != leader
            && !TreeGroup(tables, leader, k, p.pgid) {
      assert p in alive && RowTarget(p, known) == t;
    }
    if p :| RunningMember(tables, leader, k, p) && p.pgid as int == -(t as int)
            && TreeGroup(tables, leader, k, p.pgid) {
      assert p in alive && RowTarget(p, known) == t;
    }
  }

  // ---------------------------------------------------------------------------------------------
  // What one round reaches
  // ---------------------------------------------------------------------------------------------

  /** Rows as the operating system lists them: positive pids, one row a pid. */
  ghost predicate WellFormed(rows: seq<Proc>) {
    && (forall p :: p in rows ==> p.pid > 0)
    && (forall p, q :: p in rows && q in rows && p.pid == q.pid ==> p == q)
  }

  /** The id that the target aimed at `p` names. */
  function Subject(p: Proc, leader: i32, known: set<i32>): i32 {
    if p.pgid == leader || (p.pgid > 1 && p.pgid in known) then p.pgid else p.pid
  }

  /** The guard under which a round reaches live row `p`: the id named is one the sweep may signal,
      and `p` is not the leader sitting alone in a group that is not its own. */
  ghost predicate Reached(p: Proc, alive: seq<Proc>, leader: i32, known: set<i32>, caller: Caller) {
    var subject := Subject(p, leader, known);
    && subject > 1 && subject != caller.pid && subject != caller.pgid
    && (p.pid == leader ==>
          || p.pgid == leader
          || (subject == p.pgid && exists q :: q in alive && q.pid != leader && q.pgid == p.pgid))
  }

  lemma AimedTarget(alive: seq<Proc>, leader: i32, known: set<i32>, caller: Caller, q: Proc)
    requires leader > 1 && q in alive && q.pid != leader && q.pgid != leader
    requires Permitted(RowTarget(q, known), caller)
    ensures RowTarget(q, known) in RoundTargets(alive, leader, known, caller)
  {
  }

  lemma ReachedIsHit(alive: seq<Proc>, leader: i32, known: set<i32>, caller: Caller, p: Proc)
    requires leader > 1 && WellFormed(alive) && p in alive && Reached(p, alive, leader, known, caller)
    ensures HitBy(RoundTargets(alive, leader, known, caller), p, caller)
  {
    if p.pgid == leader {
      assert Neg(leader) in RoundTargets(alive, leader, known, caller) && Hits(Neg(leader), p, caller);
    } else {
      var q :| q in alive && q.pid != leader && q.pgid == p.pgid && (p.pid != leader ==> q == p);
      AimedTarget(alive, leader, known, caller, q);
      assert Hits(RowTarget(q, known), p, caller);
    }
  }

  lemma HitIsReached(alive: seq<Proc>, leader: i32, known: set<i32>, caller: Caller, p: Proc, t: i32)
    requires leader > 1 && WellFormed(alive) && p in alive
    requires t in RoundTargets(alive, leader, known, caller) && Hits(t, p, caller)
    ensures Reached(p, alive, leader, known, caller)
  {
  }

  /** A round reaches a live tree member exactly under the guard `Reached`. */
  lemma RoundReachesExactly(alive: seq<Proc>, leader: i32, known: set<i32>, caller: Caller, p: Proc)
    requires leader > 1 && WellFormed(alive) && p in alive
    ensures HitBy(RoundTargets(alive, leader, known, caller), p, caller)
            <==> Reached(p, alive, leader, known, caller)
  {
    if Reached(p, alive, leader, known, caller) {
      ReachedIsHit(alive, leader, known, caller, p);
    } else if t :| t in RoundTargets(alive, leader, known, caller) && Hits(t, p, caller) {
      HitIsReached(alive, leader, known, caller, p, t);
    }
  }

  /** The conditions agents are launched under: the leader leads its own group, and neither the
      caller nor its group is in the tree, whose pids are ordinary ones. */
  ghost predicate Launched(alive: seq<Proc>, leader: i32, known: set<i32>, caller: Caller) {
    && leader > 1 && leader in known
    && (forall p :: p in alive && p.pid == leader ==> p.pgid == leader)
    && (forall p :: p in alive ==> p.pid > 1 && p.pid in known)
    && caller.pid !in known && caller.pgid !in known
  }

  /** Coverage: under the launch conditions no live tree member escapes the round. */
  lemma EveryMemberIsReached(alive: seq<Proc>, leader: i32, known: set<i32>, caller: Caller, p: Proc)
    requires WellFormed(alive) && Launched(alive, leader, known, caller) && p in alive
    ensures HitBy(RoundTargets(alive, leader, known, caller), p, caller)
  {
    RoundReachesExactly(alive, leader, known, caller, p);
  }

  /** The launch condition on the leader's group cannot be dropped: a leader parked in a stranger's
      group is not signalled at all. */
  lemma LeaderOutsideItsGroupIsMissed(caller: Caller)
    requires caller.pid != 100 && caller.pgid != 100
    ensures var alive := [Proc(100, 1, 50, true)];
            && RoundTargets(alive, 100, {100}, caller) == {-100}
            && !HitBy(RoundTargets(alive, 100, {100}, caller), alive[0], caller)
  {
  }

  /** The sweep never signals the caller's group, yet it can reach another member of that group: it
      does so exactly to a live tree member that the tree does not lead a group for. */
  lemma CallersGroupMates(alive: seq<Proc>, leader: i32, known: set<i32>, caller: Caller, p: Proc)
    requires leader > 1 && WellFormed(alive) && p in alive && p.pgid == caller.pgid
    ensures HitBy(RoundTargets(alive, leader, known, caller), p, caller)
            <==> (&& caller.pgid != leader && p.pid != leader
                  && !(caller.pgid > 1 && caller.pgid in known)
                  && p.pid > 1 && p.pid != caller.pid && p.pid != caller.pgid)
  {
    RoundReachesExactly(alive, leader, known, caller, p);
  }

  /** Precision: whatever a round reaches is in the tree or in a group named after a tree member. */
  lemma RoundReachesOnlyTheTree(tables: Tables, leader: i32, k: nat, caller: Caller, x: Proc)
    requires leader > 1 && WellFormed(tables(k))
    ensures HitBy(TargetsAt(tables, leader, k, caller), x, caller) ==>
              x.pid in Tree(tables, leader, k) || (x.pgid > 1 && x.pgid in Tree(tables, leader, k))
  {
    var alive, tree := Alive(tables, leader, k), Tree(tables, leader, k);
    LeaderDescends(tables, leader, k);
    LiveRowsAre(tables(k), tree);
    if HitBy(TargetsAt(tables, leader, k, caller), x, caller) {
      TargetsNameTheTree(alive, leader, tree, caller, x);
    }
  }

  lemma TargetsNameTheTree(alive: seq<Proc>, leader: i32, known: set<i32>, caller: Caller, x: Proc)
    requires leader > 1 && leader in known
    requires forall p :: p in alive ==> p.pid > 0 && p.pid in known
    requires HitBy(RoundTargets(alive, leader, known, caller), x, caller)
    ensures x.pid in known || (x.pgid > 1 && x.pgid in known)
  {
  }

  // ---------------------------------------------------------------------------------------------
  // Containment over the whole run
  // ---------------------------------------------------------------------------------------------

  /** In the snapshots up to `k`, no process of `outside` has a parent elsewhere. */
  ghost predicate SelfContained(tables: Tables, k: nat, outside: iset<i32>) {
    forall j, row :: 0 <= j <= k && row in tables(j) && row.pid in outside ==> row.ppid in outside
  }

  lemma {:induction false} ChainStaysOutOf(tables: Tables, leader: i32, k: nat, links: seq<Link>,
                                           outside: iset<i32>)
    requires IsChain(tables, leader, k, links) && SelfContained(tables, k, outside)
    requires leader !in outside
    ensures Tip(leader, links) !in outside
    decreases |links|
  {
    if links != [] {
      var shorter := links[..|links| - 1];
      ChainPrefix(tables, leader, k, links);
      ChainStaysOutOf(tables, leader, k, shorter, outside);
      assert LinkSeen(tables, Tip(leader, shorter), links[|links| - 1]);
    }
  }

  lemma OutsidersNeverJoin(tables: Tables, leader: i32, k: nat, outside: iset<i32>)
    requires SelfContained(tables, k, outside) && leader !in outside
    ensures forall p :: p in Tree(tables, leader, k) ==> p !in outside
  {
    forall p | p in Tree(tables, leader, k) ensures p !in outside {
      var links :| IsChain(tables, leader, k, links) && Tip(leader, links) == p;
      ChainStaysOutOf(tables, leader, k, links, outside);
    }
  }

  /** Reparenting orphans to init never pulls the machine into the sweep: when pid 1 is listed under
      pid 0, and pid 0 under nobody in the tree, neither ever joins. */
  lemma InitNeverJoins(tables: Tables, leader: i32, k: nat)
    requires leader > 1
    requires forall j, row :: 0 <= j <= k && row in tables(j) && 0 <= row.pid <= 1 ==> row.ppid == 0
    ensures 0 !in Tree(tables, leader, k) && 1 !in Tree(tables, leader, k)
  {
    OutsidersNeverJoin(tables, leader, k, iset{0, 1});
  }

  /** A process outside the agent's descent, in a group outside it, is reached by no round of any
      sweep, however the tree is reparented meanwhile. */
  lemma BystandersAreSpared(pid: u32, tables: Tables, caller: Caller, run: Sweep,
                            outside: iset<i32>, x: Proc)
    requires IsSweep(pid, tables, caller, run) && pid < 0x8000_0000
    requires forall k :: 0 <= k < |run.rounds| ==> WellFormed(tables(k))
    requires SelfContained(tables, SWEEP_ROUNDS, outside) && pid !in outside
    requires x.pid in outside && x.pgid in outside
    ensures forall k :: 0 <= k < |run.rounds| ==> !HitBy(run.rounds[k], x, caller)
  {
    var leader := AsI32(pid);
    forall k | 0 <= k < |run.rounds| ensures !HitBy(run.rounds[k], x, caller) {
      assert run.rounds[k] == TargetsAt(tables, leader, k, caller);
      OutsidersNeverJoin(tables, leader, k, outside);
      if HitBy(run.rounds[k], x, caller) {
        RoundReachesOnlyTheTree(tables, leader, k, caller, x);
        assert false;
      }
    }
  }

  // ---------------------------------------------------------------------------------------------
  // Quiescence and the shape of a sweep
  // ---------------------------------------------------------------------------------------------

  /** The kernel has acted on round `r` by the next snapshot: nothing it reached is still running. */
  ghost predicate SignalsLanded(tables: Tables, leader: i32, r: nat, caller: Caller) {
    forall p, q | p in tables(r) && q in tables(r + 1) && p.pid == q.pid ::
      HitBy(TargetsAt(tables, leader, r, caller), p, caller) ==> !q.live
  }

  /** `q` is a child the table already listed under the same parent. */
  ghost predicate WasListed(table: seq<Proc>, q: Proc) {
    exists p :: p in table && p.pid == q.pid && p.ppid == q.ppid
  }

  /** `q` was already running. */
  ghost predicate WasRunning(table: seq<Proc>, q: Proc) {
    exists p :: p in table && p.pid == q.pid && p.live
  }

  /** The tree gains nobody between snapshot `r` and the next: it forks nothing, adopts nobody, and none
      of its dead comes back. Orphans may be handed to anybody outside it, and the rest of the machine
      may do as it likes. */
  ghost predicate TreeForksNothing(tables: Tables, leader: i32, r: nat) {
    forall q :: q in tables(r + 1) ==>
      && (q.ppid in Tree(tables, leader, r) ==> WasListed(tables(r), q))
      && (q.live && q.pid in Tree(tables, leader, r) ==> WasRunning(tables(r), q))
  }

  lemma TreeStopsGrowing(tables: Tables, leader: i32, r: nat)
    requires TreeForksNothing(tables, leader, r)
    ensures Tree(tables, leader, r + 1) == Tree(tables, leader, r)
  {
    var tree, table, next := Tree(tables, leader, r), tables(r), tables(r + 1);
    TreeClosed(tables, leader, r);
    forall i | 0 <= i < |next| && next[i].ppid in tree ensures next[i].pid in tree {
      assert next[i] in next && WasListed(table, next[i]);
      var p :| p in table && p.pid == next[i].pid && p.ppid == next[i].ppid;
      var j :| 0 <= j < |table| && table[j] == p;
    }
    LeaderDescends(tables, leader, r);
    TreeIsLeast(tables, leader, r + 1, tree, tree);
    TreeGrows(tables, leader, r, r + 1);
  }

  /** Round `r` finds the tree as launched, the tree gains nobody across it, and its signals land. */
  ghost predicate PausesAt(tables: Tables, leader: i32, r: nat, caller: Caller) {
    && WellFormed(Alive(tables, leader, r))
    && Launched(Alive(tables, leader, r), leader, Tree(tables, leader, r), caller)
    && TreeForksNothing(tables, leader, r) && SignalsLanded(tables, leader, r, caller)
  }

  lemma NobodySurvives(tables: Tables, leader: i32, r: nat, caller: Caller)
    requires PausesAt(tables, leader, r, caller)
    ensures Alive(tables, leader, r + 1) == []
  {
    TreeStopsGrowing(tables, leader, r);
    var next := Alive(tables, leader, r + 1);
    if next != [] {
      assert next[0] in next;
      LiveRowsAre(tables(r + 1), Tree(tables, leader, r + 1));
      assert WasRunning(tables(r), next[0]);
      var p :| p in tables(r) && p.pid == next[0].pid && p.live;
      MemberIsHit(tables, leader, r, caller, p);
      assert false;
    }
  }

  lemma MemberIsHit(tables: Tables, leader: i32, r: nat, caller: Caller, p: Proc)
    requires WellFormed(Alive(tables, leader, r))
    requires Launched(Alive(tables, leader, r), leader, Tree(tables, leader, r), caller)
    requires p in tables(r) && p.live && p.pid in Tree(tables, leader, r)
    ensures HitBy(TargetsAt(tables, leader, r, caller), p, caller)
  {
    LiveRowsAre(tables(r), Tree(tables, leader, r));
    EveryMemberIsReached(Alive(tables, leader, r), leader, Tree(tables, leader, r), caller, p);
  }

  /** Once the tree stops forking across one round whose signals land, the sweep is over by the next snapshot
      with nothing of the tree running, and it says nothing. */
  lemma SweepReachesQuiescence(pid: u32, tables: Tables, caller: Caller, run: Sweep, r: nat)
    requires IsSweep(pid, tables, caller, run) && r < SWEEP_ROUNDS
    ensures PausesAt(tables, AsI32(pid), r, caller) ==>
              |run.rounds| <= r + 1 && run.survivors == [] && Alive(tables, AsI32(pid), |run.rounds|) == []
  {
    if PausesAt(tables, AsI32(pid), r, caller) {
      NobodySurvives(tables, AsI32(pid), r, caller);
      SweepEndsWhenEmpty(pid, tables, caller, run, r);
    }
  }

  lemma SweepEndsWhenEmpty(pid: u32, tables: Tables, caller: Caller, run: Sweep, r: nat)
    requires IsSweep(pid, tables, caller, run) && r < SWEEP_ROUNDS && run.snapshots > 0
    requires Alive(tables, AsI32(pid), r + 1) == []
    ensures |run.rounds| <= r + 1 && run.survivors == []
    ensures Alive(tables, AsI32(pid), |run.rounds|) == []
  {
  }

  /** A sweep is silent exactly when its last snapshot, taken after a signalling round, shows no live
      tree member; a reported survivor costs all five rounds. */
  lemma SilenceIsTheLastSnapshot(pid: u32, tables: Tables, caller: Caller, run: Sweep)
    requires IsSweep(pid, tables, caller, run) && run.snapshots > 0
    ensures run.snapshots <= 6 && 1 <= |run.rounds| <= 5
    ensures run.survivors == [] <==> Alive(tables, AsI32(pid), |run.rounds|) == []
    ensures run.survivors != [] ==> |run.rounds| == 5
    ensures forall p :: p in run.survivors <==>
              exists row :: row in tables(|run.rounds|) && row.pid == p && row.live
                            && p in Tree(tables, AsI32(pid), |run.rounds|)
  {
    var n, leader := |run.rounds|, AsI32(pid);
    var alive, tree := Alive(tables, leader, n), Tree(tables, leader, n);
    LiveRowsAre(tables(n), tree);
    forall p ensures p in run.survivors <==> exists row :: row in alive && row.pid == p {
      if p in run.survivors {
        var i :| 0 <= i < |alive| && run.survivors[i] == p;
        assert alive[i] in alive;
      }
      if row :| row in alive && row.pid == p {
        var i :| 0 <= i < |alive| && alive[i] == row;
        assert run.survivors[i] == p;
      }
    }
  }

  /** Which snapshot ends a sweep: the first one after a signalling round that shows no live tree
      member, and none other before the last. One empty snapshot is enough. */
  lemma FirstEmptySnapshotEnds(pid: u32, tables: Tables, caller: Caller, run: Sweep, n: nat)
    requires IsSweep(pid, tables, caller, run) && run.snapshots > 0 && 1 <= n < SWEEP_ROUNDS
    ensures |run.rounds| == n <==>
              && Alive(tables, AsI32(pid), n) == []
              && forall k :: 0 < k < n ==> Alive(tables, AsI32(pid), k) != []
  {
    if |run.rounds| > n {
      assert Alive(tables, AsI32(pid), n) != [];
    }
  }

  /** So a single snapshot that could not be read, after any round, ends the sweep in silence, whatever is
      still running and whatever every later snapshot would have shown. */
  lemma OneUnreadableSnapshotEnds(pid: u32, tables: Tables, caller: Caller, run: Sweep, n: nat)
    requires IsSweep(pid, tables, caller, run) && run.snapshots > 0
    requires 1 <= n <= SWEEP_ROUNDS && tables(n) == []
    ensures |run.rounds| <= n && run.survivors == []
  {
    assert Alive(tables, AsI32(pid), n) == [];
    SweepEndsWhenEmpty(pid, tables, caller, run, n - 1);
  }

  /** When the process table cannot be read, a sweep is one kill of the leader's group. */
  lemma UnreadableTableMeansGroupKill(pid: u32, tables: Tables, caller: Caller, run: Sweep)
    requires IsSweep(pid, tables, caller, run)
    requires tables(0) == [] && tables(1) == []
    requires 1 < pid < 0x8000_0000 && pid != caller.pid && pid != caller.pgid
    ensures run == Sweep(2, [{-(pid as int)}], [])
  {
    var leader := AsI32(pid);
    assert Alive(tables, leader, 0) == [] && Alive(tables, leader, 1) == [];
    assert |run.rounds| == 1;
    assert run.rounds[0] == TargetsAt(tables, leader, 0, caller) == {Neg(leader)};
    assert run.rounds == [{Neg(leader)}];
  }

  /** The measured case, on a machine that goes on with its life: the daemon (7) has an agent (100),
      which runs a tool shell (500) that leads a group of its own, and the shell a command (501). After
      one round the shell is reaped, the agent and the command are zombies, the command under init; the
      `ps` of the first snapshot is gone, and there are a new `ps` and a new login. */
  const DAEMON := Caller(7, 7)
  const AGENT := Proc(100, 7, 100, true)
  const SHELL := Proc(500, 100, 500, true)
  const COMMAND := Proc(501, 500, 500, true)
  const BEFORE := [Proc(1, 0, 1, true), Proc(7, 1, 7, true), COMMAND, SHELL, AGENT, Proc(900, 7, 7, true)]
  const AFTER := [Proc(1, 0, 1, true), Proc(7, 1, 7, true), Proc(501, 1, 500, false),
                  Proc(100, 7, 100, false), Proc(901, 7, 7, true), Proc(902, 1, 902, true)]

  ghost predicate EscapedShell(tables: Tables) {
    tables(0) == BEFORE && tables(1) == AFTER
  }

  lemma ShellClosure(known: set<i32>)
    requires IsClosure({100}, BEFORE, known)
    ensures known == {100, 500, 501}
  {
    assert BEFORE[3] == SHELL && BEFORE[2] == COMMAND;
    assert SHELL.pid in known && COMMAND.pid in known;
    assert Closed({100, 500, 501}, BEFORE);
  }

  lemma ShellTree(tables: Tables)
    requires EscapedShell(tables)
    ensures Tree(tables, 100, 0) == {100, 500, 501}
  {
    TreeIsIteratedClosure(tables, 100, 0);
    ShellClosure(Tree(tables, 100, 0));
  }

  lemma ShellMembers(known: set<i32>)
    requires known == {100, 500, 501}
    ensures forall p :: p in LiveRows(BEFORE, known) <==> p == AGENT || p == SHELL || p == COMMAND
  {
    LiveRowsAre(BEFORE, known);
    assert BEFORE[2] == COMMAND && BEFORE[3] == SHELL && BEFORE[4] == AGENT;
  }

  lemma ShellRound(alive: seq<Proc>, known: set<i32>)
    requires known == {100, 500, 501}
    requires forall p :: p in alive <==> p == AGENT || p == SHELL || p == COMMAND
    ensures RoundTargets(alive, 100, known, DAEMON) == {-100, -500}
    ensures WellFormed(alive) && Launched(alive, 100, known, DAEMON)
  {
    assert RowTarget(SHELL, known) == RowTarget(COMMAND, known) == -500;
    assert SHELL in alive;
  }

  /** Only zombies of the tree are left in the second snapshot. */
  lemma ShellIsQuiet(known: set<i32>, q: Proc)
    requires known == {100, 500, 501} && q in AFTER
    ensures q.ppid !in known
    ensures q.pid in known ==> !q.live
    ensures q.pid !in known ==> q.pid == 1 || q.pid == 7 || q.pid > 900
  {
  }

  lemma ShellForksNothing(tables: Tables)
    requires EscapedShell(tables)
    ensures TreeForksNothing(tables, 100, 0)
  {
    ShellTree(tables);
    forall q | q in tables(1)
      ensures q.ppid !in Tree(tables, 100, 0) && !(q.live && q.pid in Tree(tables, 100, 0))
    {
      ShellIsQuiet(Tree(tables, 100, 0), q);
    }
  }

  lemma OtherGroupsAreMissed(targets: set<i32>, p: Proc)
    requires targets == {-100, -500} && p.pgid != 100 && p.pgid != 500
    ensures !HitBy(targets, p, DAEMON)
  {
  }

  lemma ShellRestIsApart(p: Proc, q: Proc)
    requires p in BEFORE && q in AFTER && p.pid == q.pid && q.live
    ensures p.pgid != 100 && p.pgid != 500
  {
  }

  lemma ShellSignalsLand(tables: Tables)
    requires EscapedShell(tables) && TargetsAt(tables, 100, 0, DAEMON) == {-100, -500}
    ensures SignalsLanded(tables, 100, 0, DAEMON)
  {
    forall p, q | p in tables(0) && q in tables(1) && p.pid == q.pid && q.live
      ensures !HitBy(TargetsAt(tables, 100, 0, DAEMON), p, DAEMON)
    {
      ShellRestIsApart(p, q);
      OtherGroupsAreMissed(TargetsAt(tables, 100, 0, DAEMON), p);
    }
  }

  lemma ShellPauses(tables: Tables)
    requires EscapedShell(tables)
    ensures PausesAt(tables, 100, 0, DAEMON)
    ensures TargetsAt(tables, 100, 0, DAEMON) == {-100, -500}
  {
    ShellTree(tables);
    var known, alive := Tree(tables, 100, 0), Alive(tables, 100, 0);
    ShellMembers(known);
    ShellRound(alive, known);
    ShellForksNothing(tables);
    ShellSignalsLand(tables);
  }

  /** In that case the sweep is one round, aimed at the agent's group and at the shell's, and then
      silence: the conditions of the quiescence theorem are those of an ordinary stop. */
  lemma EscapedShellIsContained(tables: Tables, run: Sweep)
    requires EscapedShell(tables) && IsSweep(100, tables, DAEMON, run)
    ensures run == Sweep(2, [{-100, -500}], [])
  {
    ShellPauses(tables);
    SweepReachesQuiescence(100, tables, DAEMON, run, 0);
    assert |run.rounds| == 1 && run.rounds[0] == TargetsAt(tables, 100, 0, DAEMON);
  }
}
