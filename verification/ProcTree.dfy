/** The process-tree kill sweep: growing the tree from process-table snapshots, choosing the
    `kill(2)` arguments of one round, and the bounded round loop around them. */
module ProcTree {

  /** The machine words the source computes in. Arithmetic on them wraps, as it does in a build
      without overflow checks. */
  type i32 = x: int | -0x8000_0000 <= x < 0x8000_0000
  type u32 = x: int | 0 <= x < 0x1_0000_0000

  /** One row of the process table; `live` is false for a zombie. */
  datatype Proc = Proc(pid: i32, ppid: i32, pgid: i32, live: bool)

  /** What the process table answers to its k-th reading. */
  type Tables = nat -> seq<Proc>

  /** The sweep doing the killing: its own pid and process group. */
  datatype Caller = Caller(pid: i32, pgid: i32)

  const SWEEP_ROUNDS: nat := 5

  function AsI32(pid: u32): i32 {
    if pid < 0x8000_0000 then pid else pid - 0x1_0000_0000
  }

  function Neg(x: i32): i32 {
    if x == -0x8000_0000 then x else -x
  }

  function Abs(x: i32): i32 {
    if x < 0 then Neg(x) else x
  }

  predicate Signalable(target: i32) {
    Abs(target) > 1
  }

  // ---------------------------------------------------------------------------------------------
  // Growing the tree over one snapshot
  // ---------------------------------------------------------------------------------------------

  /** `s` holds every process whose parent it holds. */
  ghost predicate Closed(s: set<i32>, table: seq<Proc>) {
    forall i :: 0 <= i < |table| && table[i].ppid in s ==> table[i].pid in s
  }

  /** `to` is the least set that holds `from` and is closed under "child in this table". */
  ghost predicate IsClosure(from: set<i32>, table: seq<Proc>, to: set<i32>) {
    && from <= to
    && Closed(to, table)
    && forall s :: from <= s && Closed(s, table) ==> to <= s
  }

  function Pids(table: seq<Proc>): set<i32> {
    set p | p in table :: p.pid
  }

  /** The rows of `table` that are running and in `known`, in table order. */
  function LiveRows(table: seq<Proc>, known: set<i32>): seq<Proc> {
    if table == [] then []
    else (if table[0].live && table[0].pid in known then [table[0]] else [])
         + LiveRows(table[1..], known)
  }

  lemma LiveRowsAre(table: seq<Proc>, known: set<i32>)
    ensures forall p :: p in LiveRows(table, known) <==> p in table && p.live && p.pid in known
  {
  }

  lemma LiveRowsAppend(a: seq<Proc>, b: seq<Proc>, known: set<i32>)
    ensures LiveRows(a + b, known) == LiveRows(a, known) + LiveRows(b, known)
  {
    if a == [] {
      assert a + b == b;
    } else {
      assert (a + b)[1..] == a[1..] + b;
      LiveRowsAppend(a[1..], b, known);
    }
  }

  lemma EqualBySize(a: set<i32>, b: set<i32>)
    requires a <= b && |a| == |b|
    ensures a == b
  {
    assert b == a + (b - a);
  }

  lemma FewerLeft(all: set<i32>, before: set<i32>, after: set<i32>)
    requires before <= after <= before + all && |before| != |after|
    ensures |all - after| < |all - before|
  {
    assert after <= before ==> after == before;
    var p :| p in after && p !in before;
    assert all - after <= all - before - {p};
    SubsetSize(all - after, all - before - {p});
  }

  lemma SubsetSize(a: set<i32>, b: set<i32>)
    requires a <= b
    ensures |a| <= |b|
  {
    assert b == a + (b - a);
  }

  /** Nothing has been added to `seed` that some closed superset of it lacks. */
  ghost predicate Within(known: set<i32>, seed: set<i32>, table: seq<Proc>) {
    && seed <= known <= seed + Pids(table)
    && forall s :: seed <= s && Closed(s, table) ==> known <= s
  }

  /** One pass over the table: each row whose parent is known joins. */
  method Pass(table: seq<Proc>, ghost seed: set<i32>, before: set<i32>) returns (known: set<i32>)
    requires Within(before, seed, table)
    ensures before <= known && Within(known, seed, table)
    ensures known == before ==> Closed(known, table)
  {
    known := before;
    for i := 0 to |table|
      invariant before <= known && Within(known, seed, table)
      invariant known == before ==> Closed(known, table[..i])
    {
      if table[i].ppid in known {
        known := known + {table[i].pid};
      }
    }
    assert table[..|table|] == table;
  }

  method Running(table: seq<Proc>, known: set<i32>) returns (alive: seq<Proc>)
    ensures alive == LiveRows(table, known)
  {
    alive := [];
    for i := 0 to |table|
      invariant alive == LiveRows(table[..i], known)
    {
      LiveRowsAppend(table[..i], [table[i]], known);
      assert table[..i + 1] == table[..i] + [table[i]];
      if table[i].live && table[i].pid in known {
        alive := alive + [table[i]];
      }
    }
    assert table[..|table|] == table;
  }

  /** Repeated passes over an unordered table until one adds nothing. */
  method LiveTree(table: seq<Proc>, seed: set<i32>) returns (known: set<i32>, alive: seq<Proc>)
    ensures IsClosure(seed, table, known)
    ensures alive == LiveRows(table, known)
  {
    known := seed;
    while true
      invariant Within(known, seed, table)
      decreases |Pids(table) - known|
    {
      var before := known;
      known := Pass(table, seed, before);
      if |known| == |before| {
        EqualBySize(before, known);
        break;
      }
      FewerLeft(Pids(table), before, known);
    }
    alive := Running(table, known);
  }

  /** The outcome does not depend on the order in which the table lists its rows. */
  lemma ClosureIgnoresRowOrder(seed: set<i32>, t1: seq<Proc>, t2: seq<Proc>, k1: set<i32>, k2: set<i32>)
    requires forall p :: p in t1 <==> p in t2
    requires IsClosure(seed, t1, k1) && IsClosure(seed, t2, k2)
    ensures k1 == k2
  {
    ClosedCarries(k1, t1, t2);
    ClosedCarries(k2, t2, t1);
  }

  lemma ClosedCarries(s: set<i32>, t1: seq<Proc>, t2: seq<Proc>)
    requires forall p :: p in t2 ==> p in t1
    requires Closed(s, t1)
    ensures Closed(s, t2)
  {
    forall i | 0 <= i < |t2| && t2[i].ppid in s ensures t2[i].pid in s {
      assert t2[i] in t1;
    }
  }

  // ---------------------------------------------------------------------------------------------
  // Descent over a run of snapshots
  // ---------------------------------------------------------------------------------------------

  /** One observed parenthood: `pid` was listed as a child in snapshot `round`. */
  datatype Link = Link(pid: i32, round: nat)

  ghost predicate LinkSeen(tables: Tables, parent: i32, link: Link) {
    exists row :: row in tables(link.round) && row.pid == link.pid && row.ppid == parent
  }

  /** The pid a chain of links ends at. */
  function Tip(leader: i32, links: seq<Link>): i32 {
    if links == [] then leader else links[|links| - 1].pid
  }

  /** A parent chain from `leader` whose links were seen in snapshots of non-decreasing number, none
      later than `k`. */
  ghost predicate IsChain(tables: Tables, leader: i32, k: nat, links: seq<Link>) {
    && (forall i :: 0 <= i < |links| ==> LinkSeen(tables, Tip(leader, links[..i]), links[i]))
    && (forall i, j :: 0 <= i < j < |links| ==> links[i].round <= links[j].round)
    && (forall i :: 0 <= i < |links| ==> links[i].round <= k)
  }

  /** `p` descends from `leader`, as far as snapshots 0 to `k` show. */
  ghost predicate Descends(tables: Tables, leader: i32, k: nat, p: i32) {
    exists links :: IsChain(tables, leader, k, links) && Tip(leader, links) == p
  }

  /** Every pid that snapshots 0 to `k` attribute to the tree. */
  ghost function Tree(tables: Tables, leader: i32, k: nat): set<i32> {
    set p: i32 | -0x8000_0000 <= p < 0x8000_0000 && Descends(tables, leader, k, p)
  }

  /** The tree's running processes in snapshot `k`. */
  ghost function Alive(tables: Tables, leader: i32, k: nat): seq<Proc> {
    LiveRows(tables(k), Tree(tables, leader, k))
  }

  lemma ChainExtends(tables: Tables, leader: i32, k: nat, links: seq<Link>, row: Proc)
    requires IsChain(tables, leader, k, links)
    requires row in tables(k) && row.ppid == Tip(leader, links)
    ensures Descends(tables, leader, k, row.pid)
  {
    var longer := links + [Link(row.pid, k)];
    assert longer[..|links|] == links;
    assert LinkSeen(tables, Tip(leader, links), Link(row.pid, k));
    forall i | 0 <= i < |longer| ensures LinkSeen(tables, Tip(leader, longer[..i]), longer[i]) {
      if i < |links| {
        assert longer[..i] == links[..i];
      }
    }
    assert IsChain(tables, leader, k, longer);
    assert Tip(leader, longer) == row.pid;
  }

  lemma ChainPrefix(tables: Tables, leader: i32, k: nat, links: seq<Link>)
    requires IsChain(tables, leader, k, links) && links != []
    ensures IsChain(tables, leader, k, links[..|links| - 1])
  {
    var shorter := links[..|links| - 1];
    forall i | 0 <= i < |shorter| ensures LinkSeen(tables, Tip(leader, shorter[..i]), shorter[i]) {
      assert shorter[..i] == links[..i];
    }
  }

  /** The chain's pids all lie in any set that holds the tree of the previous snapshots and is closed
      under snapshot `k`. */
  lemma {:induction false} ChainStaysInside(tables: Tables, leader: i32, k: nat, links: seq<Link>,
                                            prior: set<i32>, s: set<i32>)
    requires IsChain(tables, leader, k, links)
    requires leader in prior
    requires k > 0 ==> prior == Tree(tables, leader, k - 1)
    requires prior <= s && Closed(s, tables(k))
    ensures Tip(leader, links) in s
    decreases |links|
  {
    if links != [] {
      var last := links[|links| - 1];
      if last.round == k {
        ChainPrefix(tables, leader, k, links);
        ChainStaysInside(tables, leader, k, links[..|links| - 1], prior, s);
        assert LinkSeen(tables, Tip(leader, links[..|links| - 1]), last);
      } else {
        assert IsChain(tables, leader, k - 1, links);
      }
    }
  }

  lemma LeaderDescends(tables: Tables, leader: i32, k: nat)
    ensures Descends(tables, leader, k, leader)
  {
    assert IsChain(tables, leader, k, []);
  }

  lemma TreeGrows(tables: Tables, leader: i32, j: nat, k: nat)
    requires j <= k
    ensures Tree(tables, leader, j) <= Tree(tables, leader, k)
  {
  }

  lemma TreeClosed(tables: Tables, leader: i32, k: nat)
    ensures Closed(Tree(tables, leader, k), tables(k))
  {
    var table, tree := tables(k), Tree(tables, leader, k);
    forall i | 0 <= i < |table| && table[i].ppid in tree ensures table[i].pid in tree {
      var links :| IsChain(tables, leader, k, links) && Tip(leader, links) == table[i].ppid;
      ChainExtends(tables, leader, k, links, table[i]);
    }
  }

  lemma TreeIsLeast(tables: Tables, leader: i32, k: nat, seed: set<i32>, s: set<i32>)
    requires leader in seed
    requires k > 0 ==> seed == Tree(tables, leader, k - 1)
    requires seed <= s && Closed(s, tables(k))
    ensures Tree(tables, leader, k) <= s
  {
    forall p | p in Tree(tables, leader, k) ensures p in s {
      var links :| IsChain(tables, leader, k, links) && Tip(leader, links) == p;
      ChainStaysInside(tables, leader, k, links, seed, s);
    }
  }

  /** Closing the cumulative set over each snapshot in turn computes exactly the tree: nothing is lost
      when a parent dies or a child is reparented, and nothing joins without a chain. */
  lemma TreeIsIteratedClosure(tables: Tables, leader: i32, k: nat)
    ensures IsClosure(if k == 0 then {leader} else Tree(tables, leader, k - 1),
                      tables(k), Tree(tables, leader, k))
  {
    var seed := if k == 0 then {leader} else Tree(tables, leader, k - 1);
    LeaderDescends(tables, leader, k);
    if k > 0 {
      LeaderDescends(tables, leader, k - 1);
      TreeGrows(tables, leader, k - 1, k);
    }
    TreeClosed(tables, leader, k);
    forall s | seed <= s && Closed(s, tables(k)) ensures Tree(tables, leader, k) <= s {
      TreeIsLeast(tables, leader, k, seed, s);
    }
  }

  // ---------------------------------------------------------------------------------------------
  // One round's targets, and the sweep
  // ---------------------------------------------------------------------------------------------

  /** The target one live row contributes: its whole group when the tree leads it, else its pid. */
  function RowTarget(p: Proc, known: set<i32>): i32 {
    if p.pgid > 1 && p.pgid in known then Neg(p.pgid) else p.pid
  }

  predicate Permitted(target: i32, caller: Caller) {
    Signalable(target) && Abs(target) != caller.pid && Abs(target) != caller.pgid
  }

  /** Every `kill(2)` argument of one round. */
  function RoundTargets(alive: seq<Proc>, leader: i32, known: set<i32>, caller: Caller): set<i32> {
    if !Signalable(Neg(leader)) then {}
    else
      var candidates := {Neg(leader)} +
                        set p | p in alive && p.pid != leader && p.pgid != leader :: RowTarget(p, known);
      set t | t in candidates && Permitted(t, caller)
  }

  /** What a sweep did: how often it read the process table, the targets of each signalling round, and
      the surviving pids it reported (none when it ended silently). */
  datatype Sweep = Sweep(snapshots: nat, rounds: seq<set<i32>>, survivors: seq<i32>)

  function PidsOf(rows: seq<Proc>): (pids: seq<i32>)
    ensures |pids| == |rows|
  {
    seq(|rows|, i requires 0 <= i < |rows| => rows[i].pid)
  }

  /** The targets that snapshot `k` calls for. */
  ghost function TargetsAt(tables: Tables, leader: i32, k: nat, caller: Caller): set<i32> {
    RoundTargets(Alive(tables, leader, k), leader, Tree(tables, leader, k), caller)
  }

  /** The sweep that the snapshots `tables` determine. */
  ghost predicate IsSweep(pid: u32, tables: Tables, caller: Caller, run: Sweep) {
    var leader, n := AsI32(pid), |run.rounds|;
    if !Signalable(Neg(leader)) then run == Sweep(0, [], [])
    else
      && 1 <= n <= SWEEP_ROUNDS
      && run.snapshots == n + 1
      && (forall k :: 0 <= k < n ==> run.rounds[k] == TargetsAt(tables, leader, k, caller))
      && (forall k :: 0 < k < n ==> Alive(tables, leader, k) != [])
      && (n < SWEEP_ROUNDS ==> Alive(tables, leader, n) == [])
      && run.survivors == PidsOf(Alive(tables, leader, n))
  }

  lemma ClosureUnique(seed: set<i32>, table: seq<Proc>, k1: set<i32>, k2: set<i32>)
    requires IsClosure(seed, table, k1) && IsClosure(seed, table, k2)
    ensures k1 == k2
  {
  }

  /** `tree`, `live` and `targets` say what snapshot `k` makes of the ones before it: the closed set, its
      running members, and whom to signal. */
  ghost predicate IsStep(leader: i32, tables: Tables, caller: Caller, tree: nat -> set<i32>,
                         live: nat -> seq<Proc>, targets: nat -> set<i32>, k: nat)
  {
    && IsClosure(if k == 0 then {leader} else tree(k - 1), tables(k), tree(k))
    && live(k) == LiveRows(tables(k), tree(k))
    && targets(k) == RoundTargets(live(k), leader, tree(k), caller)
  }

  /** Reads the process table once more, closes the known set over it, and takes aim. */
  method Round(leader: i32, tables: Tables, caller: Caller, ghost tree: nat -> set<i32>,
               ghost live: nat -> seq<Proc>, ghost targets: nat -> set<i32>, round: nat, seed: set<i32>)
    returns (known: set<i32>, alive: seq<Proc>, aimed: set<i32>)
    requires IsStep(leader, tables, caller, tree, live, targets, round)
    requires seed == if round == 0 then {leader} else tree(round - 1)
    ensures known == tree(round) && alive == live(round) && aimed == targets(round)
  {
    known, alive := LiveTree(tables(round), seed);
    ClosureUnique(seed, tables(round), known, tree(round));
    aimed := RoundTargets(alive, leader, known, caller);
  }

  /** The round loop: it ends on the first empty snapshot after a signalling round, or after the last
      one it may take. */
  method SweepRounds(leader: i32, tables: Tables, caller: Caller, ghost tree: nat -> set<i32>,
                     ghost live: nat -> seq<Proc>, ghost targets: nat -> set<i32>)
    returns (run: Sweep)
    requires forall k: nat :: IsStep(leader, tables, caller, tree, live, targets, k)
    ensures 1 <= |run.rounds| <= SWEEP_ROUNDS && run.snapshots == |run.rounds| + 1
    ensures forall k :: 0 <= k < |run.rounds| ==> run.rounds[k] == targets(k)
    ensures forall k :: 0 < k < |run.rounds| ==> live(k) != []
    ensures |run.rounds| < SWEEP_ROUNDS ==> live(|run.rounds|) == []
    ensures run.survivors == PidsOf(live(|run.rounds|))
  {
    var known, alive, aimed := {leader}, [], {};
    var rounds: seq<set<i32>> := [];
    var round := 0;
    while true
      invariant 0 <= round == |rounds| <= SWEEP_ROUNDS
      invariant known == if round == 0 then {leader} else tree(round - 1)
      invariant forall k :: 0 <= k < round ==> rounds[k] == targets(k)
      invariant forall k :: 0 < k < round ==> live(k) != []
      decreases SWEEP_ROUNDS - round
    {
      known, alive, aimed := Round(leader, tables, caller, tree, live, targets, round, known);
      if alive == [] && round > 0 {
        return Sweep(round + 1, rounds, []);
      }
      if round == SWEEP_ROUNDS {
        break;
      }
      rounds := rounds + [aimed];
      round := round + 1;
    }
    run := Sweep(round + 1, rounds, PidsOf(alive));
  }

  /** Descent determines what each snapshot is made of. */
  lemma Determined(leader: i32, tables: Tables, caller: Caller)
    returns (tree: nat -> set<i32>, live: nat -> seq<Proc>, targets: nat -> set<i32>)
    ensures forall k: nat :: IsStep(leader, tables, caller, tree, live, targets, k)
    ensures forall k: nat :: live(k) == Alive(tables, leader, k)
    ensures forall k: nat :: targets(k) == TargetsAt(tables, leader, k, caller)
  {
    tree := (k: nat) => Tree(tables, leader, k);
    live := (k: nat) => Alive(tables, leader, k);
    targets := (k: nat) => TargetsAt(tables, leader, k, caller);
    forall k: nat ensures IsStep(leader, tables, caller, tree, live, targets, k) {
      TreeIsIteratedClosure(tables, leader, k);
      StepBy(leader, tables, caller, tree, live, targets, k);
    }
  }

  lemma StepBy(leader: i32, tables: Tables, caller: Caller, tree: nat -> set<i32>,
               live: nat -> seq<Proc>, targets: nat -> set<i32>, k: nat)
    requires IsClosure(if k == 0 then {leader} else tree(k - 1), tables(k), tree(k))
    requires live(k) == LiveRows(tables(k), tree(k))
    requires targets(k) == RoundTargets(live(k), leader, tree(k), caller)
    ensures IsStep(leader, tables, caller, tree, live, targets, k)
  {
  }

  /** The whole sweep from `pid`: for any sequence of snapshots it is the one that descent determines. */
  method KillTree(pid: u32, tables: Tables, caller: Caller) returns (run: Sweep)
    ensures IsSweep(pid, tables, caller, run)
  {
    var leader := AsI32(pid);
    if !Signalable(Neg(leader)) {
      return Sweep(0, [], []);
    }
    ghost var tree, live, targets := Determined(leader, tables, caller);
    run := SweepRounds(leader, tables, caller, tree, live, targets);
  }

  /** Arms a kill for when a turn is abandoned; `Drop` is what the language runs on abandonment. */
  class KillTreeOnDrop {
    var pid: u32

    constructor (pid: u32)
      ensures this.pid == pid
    {
      this.pid := pid;
    }

    method Disarm()
      modifies this
      ensures pid == 0
    {
      pid := 0;
    }

    /** A disarmed guard reads no table and sends nothing. */
    method Drop(tables: Tables, caller: Caller) returns (run: Sweep)
      ensures IsSweep(pid, tables, caller, run)
      ensures pid == 0 ==> run.snapshots == 0 && run.rounds == [] && run.survivors == []
    {
      run := KillTree(pid, tables, caller);
    }
  }
}
