/**
 * NUMA fault statistics: what every task has accumulated for itself, and the
 * groups of tasks that keep the sums of their members' statistics.
 */
module NumaGroups {
  import opened Common
  import opened Arithmetic
  import opened Sums

  datatype Stat = Mem | Cpu | MemBuf | CpuBuf

  /** The regions of the statistics array in their order. */
  function Region(s: Stat): nat {
    match s
    case Mem => 0
    case Cpu => 1
    case MemBuf => 2
    case CpuBuf => 3
  }

  /** task_faults_idx for nodes NUMA nodes. */
  function Idx(nodes: nat, s: Stat, nid: nat, priv: nat): nat {
    2 * (Region(s) * nodes + nid) + priv
  }

  /** A task's statistics, empty once they are freed, and its group. */
  datatype Task = Task(faults: seq<int>, totalFaults: int, group: Option<nat>)

  /** A group keeps the memory and the CPU region only. */
  datatype Group = Group(refcount: int, nrTasks: int, faults: seq<int>, totalFaults: int)

  /** The figures that a group keeps of its members. */
  datatype Figure = Faults(i: nat) | TotalFaults | Count

  function OfTask(t: Task, f: Figure): int {
    match f
    case Faults(i) => if i < |t.faults| then t.faults[i] else 0
    case TotalFaults => t.totalFaults
    case Count => 1
  }

  function OfGroup(g: Group, f: Figure): int {
    match f
    case Faults(i) => if i < |g.faults| then g.faults[i] else 0
    case TotalFaults => g.totalFaults
    case Count => g.nrTasks
  }

  ghost function Members(tasks: map<nat, Task>, g: nat): (s: set<nat>)
    ensures s <= tasks.Keys
  {
    set p | p in tasks && tasks[p].group == Some(g)
  }

  ghost function Figures(tasks: map<nat, Task>, f: Figure): (m: map<nat, int>)
    ensures m.Keys == tasks.Keys
  {
    map p | p in tasks :: OfTask(tasks[p], f)
  }

  ghost function SumOf(tasks: map<nat, Task>, g: nat, f: Figure): int {
    Sum(Members(tasks, g), Figures(tasks, f))
  }

  /** What a task in the given state would add to the figure of group g. */
  function Part(t: Task, g: nat, f: Figure): int {
    if t.group == Some(g) then OfTask(t, f) else 0
  }

  /** Changing one task changes every group's sum by what the task adds to it. */
  lemma SumChanges(tasks: map<nat, Task>, p: nat, t: Task, g: nat, f: Figure)
    ensures SumOf(tasks[p := t], g, f)
         == SumOf(tasks, g, f) - (if p in tasks then Part(tasks[p], g, f) else 0) + Part(t, g, f)
  {
    hide Sum;
    var next := tasks[p := t];
    var others := Members(tasks, g) - {p};
    assert Members(next, g) - {p} == others;
    SumAgree(others, Figures(tasks, f), Figures(next, f));
    if p in Members(tasks, g) {
      SumRemove(Members(tasks, g), p, Figures(tasks, f));
    } else {
      assert Members(tasks, g) == others;
    }
    if p in Members(next, g) {
      SumRemove(Members(next, g), p, Figures(next, f));
    } else {
      assert Members(next, g) == others;
    }
  }

  /** The first n figures of a row together; the memory region comes first. */
  function RowTotal(row: seq<int>, n: nat): int
    requires n <= |row|
  {
    if n == 0 then 0 else RowTotal(row, n - 1) + row[n - 1]
  }

  lemma {:induction false} RowTotalChanges(row: seq<int>, r: seq<int>, n: nat, j: nat, d: int)
    requires n <= |row| && n <= |r|
    requires forall i :: 0 <= i < n ==> r[i] == row[i] + if i == j then d else 0
    ensures RowTotal(r, n) == RowTotal(row, n) + if j < n then d else 0
  {
    if n > 0 {
      RowTotalChanges(row, r, n - 1, j, d);
    }
  }

  lemma {:induction false} RowTotalZero(row: seq<int>, n: nat)
    requires n <= |row| && forall i :: 0 <= i < n ==> row[i] == 0
    ensures RowTotal(row, n) == 0
  {
    if n > 0 {
      RowTotalZero(row, n - 1);
    }
  }

  /** A task's total is that of its memory faults. */
  ghost predicate Totalled(nodes: nat, tasks: map<nat, Task>) {
    forall p {:trigger tasks[p]} :: p in tasks ==> TaskTotalled(nodes, tasks[p])
  }

  ghost predicate TaskTotalled(nodes: nat, t: Task) {
    |t.faults| == 8 * nodes ==> t.totalFaults == RowTotal(t.faults, 2 * nodes)
  }

  ghost predicate Shaped(nodes: nat, tasks: map<nat, Task>, groups: map<nat, Group>) {
    && (forall p :: p in tasks ==> |tasks[p].faults| == 8 * nodes || (tasks[p].faults == [] && tasks[p].group.None?))
    && (forall p :: p in tasks && tasks[p].group.Some? ==> tasks[p].group.value in groups)
    && (forall g :: g in groups ==> |groups[g].faults| == 4 * nodes && groups[g].refcount == groups[g].nrTasks)
  }

  /** Every figure of a group that it keeps is the sum over its members. */
  ghost predicate Conserved(nodes: nat, tasks: map<nat, Task>, groups: map<nat, Group>) {
    forall g: nat, f: Figure {:trigger SumOf(tasks, g, f)} :: g in groups && (f.Faults? ==> f.i < 4 * nodes) ==>
      OfGroup(groups[g], f) == SumOf(tasks, g, f)
  }

  /** p goes over to the group of tsk: another one, larger than p's own or as large and at a higher address. */
  ghost predicate Joins(tasks: map<nat, Task>, groups: map<nat, Group>, p: nat, own: nat, tsk: Option<nat>, agreed: bool) {
    && agreed && p in tasks && tsk.Some? && tsk.value in tasks && tasks[tsk.value].group.Some?
    && var g := tasks[tsk.value].group.value;
    && g != own && g in groups
    && var size := if tasks[p].group.None? || own !in groups then 1 else groups[own].nrTasks;
    && (size < groups[g].nrTasks || (size == groups[g].nrTasks && own <= g))
  }

  /** A task's faults on a node's memory. */
  function NodeFaults(row: seq<int>, nid: nat): int
    requires 2 * nid + 1 < |row|
  {
    row[2 * nid] + row[2 * nid + 1]
  }

  /** A task's share of the faults its CPU ran into. */
  function Share(cpuWeight: nat, faults: int, localFaults: nat): int {
    cpuWeight * faults / (localFaults + 1)
  }

  lemma Slots(nodes: nat, nid: nat, priv: nat)
    requires nid < nodes && priv < 2
    ensures var j := 2 * nid + priv;
            && j < 2 * nodes
            && Idx(nodes, Mem, nid, priv) == j && Idx(nodes, Cpu, nid, priv) == 2 * nodes + j
            && Idx(nodes, MemBuf, nid, priv) == 4 * nodes + j && Idx(nodes, CpuBuf, nid, priv) == 6 * nodes + j
  {
  }

  /** Slot j is one kind of fault on one node: its regions follow each other at intervals of 2 * nodes. */
  function Decayed(row: seq<int>, nodes: nat, j: nat, cpuWeight: nat, localFaults: nat): (r: seq<int>)
    requires j < 2 * nodes && |row| == 8 * nodes
    ensures |r| == |row|
  {
    var cpu, membuf, cpubuf := 2 * nodes + j, 4 * nodes + j, 6 * nodes + j;
    row[membuf := 0][cpubuf := 0][j := row[j] - row[j] / 2 + row[membuf]]
       [cpu := row[cpu] - row[cpu] / 2 + Share(cpuWeight, row[cpubuf], localFaults)]
  }

  /** The first slots of the online nodes decayed. */
  function Placed(row: seq<int>, nodes: nat, online: set<nat>, cpuWeight: nat, localFaults: nat, slots: nat): (r: seq<int>)
    requires slots <= 2 * nodes && |row| == 8 * nodes
    ensures |r| == |row|
  {
    if slots == 0 then row
    else
      var r := Placed(row, nodes, online, cpuWeight, localFaults, slots - 1);
      if (slots - 1) / 2 in online then Decayed(r, nodes, slots - 1, cpuWeight, localFaults) else r
  }

  lemma PlacedKeepsOthers(row: seq<int>, nodes: nat, online: set<nat>, cpuWeight: nat, localFaults: nat, slots: nat)
    requires slots + 2 <= 2 * nodes && |row| == 8 * nodes && slots % 2 == 0
    ensures slots / 2 !in online ==>
              Placed(row, nodes, online, cpuWeight, localFaults, slots + 2) == Placed(row, nodes, online, cpuWeight, localFaults, slots)
  {
  }

  /** The figures of slot j have decayed once, from what was recorded. */
  ghost predicate DecayedAt(row: seq<int>, r: seq<int>, nodes: nat, j: nat, cpuWeight: nat, localFaults: nat)
    requires |row| == |r| == 8 * nodes && j < 2 * nodes
  {
    && r[j] == row[j] - row[j] / 2 + row[4 * nodes + j] && r[4 * nodes + j] == r[6 * nodes + j] == 0
    && r[2 * nodes + j] == row[2 * nodes + j] - row[2 * nodes + j] / 2 + Share(cpuWeight, row[6 * nodes + j], localFaults)
  }

  ghost predicate SameAt(row: seq<int>, r: seq<int>, nodes: nat, j: nat)
    requires |row| == |r| == 8 * nodes && j < 2 * nodes
  {
    && r[j] == row[j] && r[2 * nodes + j] == row[2 * nodes + j]
    && r[4 * nodes + j] == row[4 * nodes + j] && r[6 * nodes + j] == row[6 * nodes + j]
  }

  lemma OneSlot(row: seq<int>, nodes: nat, i: nat, j: nat, cpuWeight: nat, localFaults: nat)
    requires |row| == 8 * nodes && i < 2 * nodes && j < 2 * nodes
    ensures var r := Decayed(row, nodes, i, cpuWeight, localFaults);
            if i == j then DecayedAt(row, r, nodes, j, cpuWeight, localFaults) else SameAt(row, r, nodes, j)
  {
    hide Share;
  }

  lemma SameThen(row: seq<int>, r: seq<int>, t: seq<int>, nodes: nat, j: nat, cpuWeight: nat, localFaults: nat)
    requires |row| == |r| == |t| == 8 * nodes && j < 2 * nodes
    ensures SameAt(row, r, nodes, j) && DecayedAt(r, t, nodes, j, cpuWeight, localFaults) ==> DecayedAt(row, t, nodes, j, cpuWeight, localFaults)
    ensures DecayedAt(row, r, nodes, j, cpuWeight, localFaults) && SameAt(r, t, nodes, j) ==> DecayedAt(row, t, nodes, j, cpuWeight, localFaults)
    ensures SameAt(row, r, nodes, j) && SameAt(r, t, nodes, j) ==> SameAt(row, t, nodes, j)
  {
    hide Share;
  }

  /** Every slot of an online node decays once, from what was recorded to begin with. */
  lemma {:induction false} PlacedAt(row: seq<int>, nodes: nat, online: set<nat>, cpuWeight: nat, localFaults: nat, slots: nat, j: nat)
    requires slots <= 2 * nodes && |row| == 8 * nodes && j < 2 * nodes
    ensures var r := Placed(row, nodes, online, cpuWeight, localFaults, slots);
            if j < slots && j / 2 in online then DecayedAt(row, r, nodes, j, cpuWeight, localFaults) else SameAt(row, r, nodes, j)
  {
    hide Decayed, DecayedAt;
    if slots > 0 {
      PlacedAt(row, nodes, online, cpuWeight, localFaults, slots - 1, j);
      var before := Placed(row, nodes, online, cpuWeight, localFaults, slots - 1);
      OneSlot(before, nodes, slots - 1, j, cpuWeight, localFaults);
      SameThen(row, before, Placed(row, nodes, online, cpuWeight, localFaults, slots), nodes, j, cpuWeight, localFaults);
    }
  }

  /** The group's figures have moved along with the task's. */
  ghost predicate Along(nodes: nat, t: Task, was: Group, row: seq<int>, total: int, grp: Group) {
    && |row| == |t.faults| == 8 * nodes && |grp.faults| == |was.faults| == 4 * nodes
    && grp.nrTasks == was.nrTasks && grp.refcount == was.refcount
    && grp.totalFaults - total == was.totalFaults - t.totalFaults
    && (forall j :: 0 <= j < 4 * nodes ==> grp.faults[j] - row[j] == was.faults[j] - t.faults[j])
    && total - RowTotal(row, 2 * nodes) == t.totalFaults - RowTotal(t.faults, 2 * nodes)
  }

  /** best is an online node with most faults, if there are any. */
  ghost predicate IsBest(row: seq<int>, nodes: nat, online: set<nat>, best: Option<nat>) {
    && |row| >= 2 * nodes
    && (best.Some? ==> best.value < nodes && best.value in online && NodeFaults(row, best.value) > 0)
    && forall nid :: 0 <= nid < nodes && nid in online ==>
         NodeFaults(row, nid) <= if best.Some? then NodeFaults(row, best.value) else 0
  }

  /** The loop body of task_numa_placement for one kind of fault on one node. */
  method PlaceSlot(nodes: nat, row: seq<int>, total: int, grp: Group, nid: nat, priv: nat,
                   cpuWeight: nat, localFaults: nat, ghost t: Task, ghost was: Group)
    returns (row': seq<int>, total': int, grp': Group)
    requires nid < nodes && priv < 2 && Along(nodes, t, was, row, total, grp)
    ensures row' == Decayed(row, nodes, 2 * nid + priv, cpuWeight, localFaults)
    ensures Along(nodes, t, was, row', total', grp')
  {
    hide Share, Idx;
    Slots(nodes, nid, priv);
    var mem, membuf := Idx(nodes, Mem, nid, priv), Idx(nodes, MemBuf, nid, priv);
    var cpu, cpubuf := Idx(nodes, Cpu, nid, priv), Idx(nodes, CpuBuf, nid, priv);
    var diff := row[membuf] - row[mem] / 2;
    var cpuDiff := Share(cpuWeight, row[cpubuf], localFaults) - row[cpu] / 2;
    row' := row[membuf := 0][cpubuf := 0][mem := row[mem] + diff][cpu := row[cpu] + cpuDiff];
    total' := total + diff;
    RowTotalChanges(row, row', 2 * nodes, mem, diff);
    grp' := grp.(faults := grp.faults[mem := grp.faults[mem] + diff][cpu := grp.faults[cpu] + cpuDiff],
      totalFaults := grp.totalFaults + diff);
  }

  lemma AlongFacts(nodes: nat, t: Task, was: Group, row: seq<int>, total: int, grp: Group)
    requires |t.faults| == 8 * nodes && |was.faults| == 4 * nodes
    ensures Along(nodes, t, was, t.faults, t.totalFaults, was)
    ensures Along(nodes, t, was, row, total, grp) ==> |row| == 8 * nodes
  {
  }

  lemma PlacedNone(row: seq<int>, nodes: nat, online: set<nat>, cpuWeight: nat, localFaults: nat)
    requires |row| == 8 * nodes
    ensures Placed(row, nodes, online, cpuWeight, localFaults, 0) == row
  {
  }

  lemma PlacedNext(row: seq<int>, nodes: nat, online: set<nat>, cpuWeight: nat, localFaults: nat, nid: nat, priv: nat)
    requires |row| == 8 * nodes && nid < nodes && priv < 2 && nid in online
    ensures Placed(row, nodes, online, cpuWeight, localFaults, 2 * nid + priv + 1)
         == Decayed(Placed(row, nodes, online, cpuWeight, localFaults, 2 * nid + priv), nodes, 2 * nid + priv, cpuWeight, localFaults)
  {
    assert (2 * nid + priv) / 2 == nid;
  }

  lemma DecayedKeeps(row: seq<int>, nodes: nat, j: nat, cpuWeight: nat, localFaults: nat)
    requires j < 2 * nodes && |row| == 8 * nodes
    ensures forall k :: 0 <= k < 2 * nodes && k != j ==> Decayed(row, nodes, j, cpuWeight, localFaults)[k] == row[k]
  {
  }

  /** The loop of task_numa_placement over the online nodes, on a task and its group. */
  method PlaceNodes(nodes: nat, t: Task, was: Group, online: set<nat>, cpuWeight: nat, localFaults: nat)
    returns (row: seq<int>, total: int, grp: Group, best: Option<nat>)
    requires |t.faults| == 8 * nodes && |was.faults| == 4 * nodes
    ensures row == Placed(t.faults, nodes, online, cpuWeight, localFaults, 2 * nodes)
    ensures Along(nodes, t, was, row, total, grp) && IsBest(row, nodes, online, best)
  {
    hide Decayed, Idx, Placed, Along;
    AlongFacts(nodes, t, was, t.faults, t.totalFaults, was);
    PlacedNone(t.faults, nodes, online, cpuWeight, localFaults);
    row, total, grp, best := t.faults, t.totalFaults, was, None;
    var maxFaults := 0;
    for nid := 0 to nodes
      invariant Along(nodes, t, was, row, total, grp) && |row| == 8 * nodes
      invariant row == Placed(t.faults, nodes, online, cpuWeight, localFaults, 2 * nid)
      invariant best.None? ==> maxFaults == 0
      invariant best.Some? ==> best.value < nid && best.value in online && NodeFaults(row, best.value) == maxFaults > 0
      invariant forall n :: 0 <= n < nid && n in online ==> NodeFaults(row, n) <= maxFaults
    {
      AlongFacts(nodes, t, was, row, total, grp);
      PlacedKeepsOthers(t.faults, nodes, online, cpuWeight, localFaults, 2 * nid);
      if nid in online {
        var faults := 0;
        ghost var before := row;
        for priv := 0 to 2
          invariant Along(nodes, t, was, row, total, grp) && |row| == 8 * nodes
          invariant row == Placed(t.faults, nodes, online, cpuWeight, localFaults, 2 * nid + priv)
          invariant faults == (if priv > 0 then row[2 * nid] else 0) + (if priv > 1 then row[2 * nid + 1] else 0)
          invariant forall j :: 0 <= j < 2 * nid ==> row[j] == before[j]
        {
          PlacedNext(t.faults, nodes, online, cpuWeight, localFaults, nid, priv);
          DecayedKeeps(row, nodes, 2 * nid + priv, cpuWeight, localFaults);
          row, total, grp := PlaceSlot(nodes, row, total, grp, nid, priv, cpuWeight, localFaults, t, was);
          faults := faults + row[2 * nid + priv];
        }
        if faults > maxFaults {
          maxFaults, best := faults, Some(nid);
        }
      }
    }
  }

  class NumaBalancing {
    const nodes: nat
    var tasks: map<nat, Task>
    var groups: map<nat, Group>

    ghost predicate Valid()
      reads this
    {
      Shaped(nodes, tasks, groups) && Conserved(nodes, tasks, groups) && Totalled(nodes, tasks)
    }

    constructor (nodes: nat)
      ensures Valid() && this.nodes == nodes && tasks == map[] && groups == map[]
    {
      this.nodes, tasks, groups := nodes, map[], map[];
    }

    /** A task with fresh statistics. */
    method AddTask(p: nat)
      requires Valid() && p !in tasks
      modifies `tasks
      ensures Valid() && tasks == old(tasks)[p := Task(seq(8 * nodes, i => 0), 0, None)]
    {
      ghost var t := Task(seq(8 * nodes, i => 0), 0, None);
      RowTotalZero(t.faults, 2 * nodes);
      Unchanged(nodes, tasks, groups, p, t);
      tasks := tasks[p := Task(seq(8 * nodes, i => 0), 0, None)];
    }

    /** task_numa_fault as far as the statistics go: faults are counted in the buffers. */
    method Fault(p: nat, memNode: nat, cpuNode: nat, priv: nat, pages: nat)
      requires Valid() && p in tasks && tasks[p].faults != [] && memNode < nodes && cpuNode < nodes && priv < 2
      modifies `tasks
      ensures Valid() && tasks.Keys == old(tasks).Keys && |tasks[p].faults| == |old(tasks)[p].faults| == 8 * nodes
      ensures forall i :: 0 <= i < 8 * nodes ==>
                tasks[p].faults[i] == old(tasks)[p].faults[i]
                  + (if i == Idx(nodes, MemBuf, memNode, priv) || i == Idx(nodes, CpuBuf, cpuNode, priv) then pages else 0)
      ensures tasks == old(tasks)[p := old(tasks)[p].(faults := tasks[p].faults)]
    {
      var row := tasks[p].faults;
      var m, c := Idx(nodes, MemBuf, memNode, priv), Idx(nodes, CpuBuf, cpuNode, priv);
      row := row[m := row[m] + pages];
      row := row[c := row[c] + pages];
      Unchanged(nodes, tasks, groups, p, tasks[p].(faults := row));
      RowTotalChanges(tasks[p].faults, row, 2 * nodes, 2 * nodes, 0);
      tasks := tasks[p := tasks[p].(faults := row)];
    }

    /** The first part of task_numa_group: a task without a group founds one of its own. */
    method FoundGroup(p: nat, g: nat)
      requires Valid() && p in tasks && tasks[p].faults != [] && tasks[p].group.None? && g !in groups
      modifies `tasks, `groups
      ensures Valid() && tasks == old(tasks)[p := old(tasks)[p].(group := Some(g))]
      ensures g in groups && groups[g].nrTasks == 1 && groups == old(groups)[g := groups[g]]
    {
      var faults := seq(4 * nodes, i requires 0 <= i < 4 * nodes && p in tasks && |tasks[p].faults| == 8 * nodes reads this => tasks[p].faults[i]);
      var grp := Group(1, 1, faults, tasks[p].totalFaults);
      ghost var empty := Group(0, 0, seq(4 * nodes, i => 0), 0);
      EmptyGroup(nodes, tasks, groups, g);
      Followed(nodes, tasks, groups[g := empty], p, tasks[p].(group := Some(g)), g, grp);
      assert groups[g := empty][g := grp] == groups[g := grp];
      tasks := tasks[p := tasks[p].(group := Some(g))];
      groups := groups[g := grp];
    }

    /** The figures of a member move out of its group; an empty group is freed. */
    method Leave(p: nat, faults: seq<int>)
      requires Valid() && p in tasks && tasks[p].group.Some? && (faults == [] || faults == tasks[p].faults)
      modifies `tasks, `groups
      ensures Valid() && tasks == old(tasks)[p := old(tasks)[p].(group := None, faults := faults)]
      ensures var g := old(tasks)[p].group.value;
              if old(groups)[g].nrTasks == 1 then groups == old(groups) - {g}
              else g in groups && groups[g].nrTasks == old(groups)[g].nrTasks - 1 && groups == old(groups)[g := groups[g]]
    {
      hide SumOf, Shaped, Conserved;
      TaskFacts(p);
      var g := tasks[p].group.value;
      var t := tasks[p];
      var row := groups[g].faults;
      for i := 0 to 4 * nodes
        invariant |row| == 4 * nodes
        invariant forall j :: 0 <= j < 4 * nodes ==> row[j] == groups[g].faults[j] - if j < i then t.faults[j] else 0
      {
        row := row[i := row[i] - t.faults[i]];
      }
      var grp := Group(groups[g].refcount - 1, groups[g].nrTasks - 1, row, groups[g].totalFaults - t.totalFaults);
      Followed(nodes, tasks, groups, p, t.(group := None, faults := faults), g, grp);
      tasks := tasks[p := t.(group := None, faults := faults)];
      groups := groups[g := grp];
      if grp.refcount == 0 {
        FreeGroup(nodes, tasks, groups, g);
        groups := groups - {g};
      }
    }

    /** The figures of a task move into a group. */
    method Enter(p: nat, g: nat)
      requires Valid() && p in tasks && tasks[p].faults != [] && tasks[p].group.None? && g in groups
      modifies `tasks, `groups
      ensures Valid() && tasks == old(tasks)[p := old(tasks)[p].(group := Some(g))]
      ensures groups.Keys == old(groups).Keys && groups[g].nrTasks == old(groups)[g].nrTasks + 1
      ensures groups == old(groups)[g := groups[g]]
    {
      hide SumOf, Shaped, Conserved;
      TaskFacts(p);
      GroupFacts(g);
      var t := tasks[p];
      var row := groups[g].faults;
      for i := 0 to 4 * nodes
        invariant |row| == 4 * nodes
        invariant forall j :: 0 <= j < 4 * nodes ==> row[j] == groups[g].faults[j] + if j < i then t.faults[j] else 0
      {
        row := row[i := row[i] + t.faults[i]];
      }
      var grp := Group(groups[g].refcount + 1, groups[g].nrTasks + 1, row, groups[g].totalFaults + t.totalFaults);
      Followed(nodes, tasks, groups, p, t.(group := Some(g)), g, grp);
      tasks := tasks[p := t.(group := Some(g))];
      groups := groups[g := grp];
    }

    lemma TaskFacts(p: nat)
      requires Valid() && p in tasks
      ensures tasks[p].faults != [] ==> |tasks[p].faults| == 8 * nodes
      ensures tasks[p].group.Some? ==> |tasks[p].faults| == 8 * nodes && tasks[p].group.value in groups
      ensures tasks[p].group.Some? ==> |groups[tasks[p].group.value].faults| == 4 * nodes
      ensures tasks[p].group.Some? ==> groups[tasks[p].group.value].refcount == groups[tasks[p].group.value].nrTasks
    {
    }

    lemma GroupFacts(g: nat)
      requires Valid() && g in groups
      ensures |groups[g].faults| == 4 * nodes && groups[g].refcount == groups[g].nrTasks
    {
    }

    /**
     * task_numa_group: p, which has run into a page last used by tsk, founds a
     * group if it has none and joins tsk's group if that is the larger one, or
     * of the same size and at the higher address.
     */
    method TaskNumaGroup(p: nat, g: nat, tsk: Option<nat>, sameMm: bool, shared: bool) returns (priv: Option<bool>)
      requires Valid() && p in tasks && tasks[p].faults != []
      requires (tasks[p].group.None? && g !in groups) || tasks[p].group == Some(g)
      requires tsk.Some? ==> tsk.value in tasks
      modifies `tasks, `groups
      ensures Valid() && tasks.Keys == old(tasks).Keys && tasks[p].group.Some?
      ensures tasks == old(tasks)[p := old(tasks)[p].(group := tasks[p].group)]
      ensures tasks[p].group == if Joins(old(tasks), old(groups), p, g, tsk, sameMm || shared) then old(tasks)[tsk.value].group else Some(g)
      ensures priv == if Joins(old(tasks), old(groups), p, g, tsk, true) then Some(!(sameMm || shared)) else None
    {
      hide SumOf, Shaped, Conserved;
      TaskFacts(p);
      if tsk.Some? {
        TaskFacts(tsk.value);
      }
      priv := None;
      if tasks[p].group.None? {
        FoundGroup(p, g);
      }
      if tsk.None? || tasks[tsk.value].group.None? {
        return;
      }
      var grp := tasks[tsk.value].group.value;
      if grp == g {
        return;
      }
      TaskFacts(p);
      HasMember(nodes, tasks, groups, tsk.value);
      if groups[g].nrTasks > groups[grp].nrTasks {
        return;
      }
      if groups[g].nrTasks == groups[grp].nrTasks && g > grp {
        return;
      }
      var join := sameMm || shared;
      priv := Some(!join);
      if !join {
        return;
      }
      Leave(p, tasks[p].faults);
      Enter(p, grp);
    }

    /**
     * The statistics part of task_numa_placement: what was recorded halves and
     * the buffers are added to it, in the task and in its group. cpuWeight is
     * the share of CPU time the task had, localFaults its faults since the
     * last scan. best is an online node where the task now has most faults.
     */
    method TaskNumaPlacement(p: nat, online: set<nat>, cpuWeight: nat, localFaults: nat) returns (best: Option<nat>)
      requires Valid() && p in tasks && tasks[p].faults != []
      modifies `tasks, `groups
      ensures Valid() && tasks.Keys == old(tasks).Keys && groups.Keys == old(groups).Keys
      ensures |old(tasks)[p].faults| == 8 * nodes
      ensures tasks[p].faults == Placed(old(tasks)[p].faults, nodes, online, cpuWeight, localFaults, 2 * nodes)
      ensures tasks[p].group == old(tasks)[p].group && forall q :: q in tasks && q != p ==> tasks[q] == old(tasks)[q]
      ensures forall g :: g in groups && tasks[p].group != Some(g) ==> groups[g] == old(groups)[g]
      ensures IsBest(tasks[p].faults, nodes, online, best)
    {
      hide SumOf, Shaped, Conserved, Placed;
      TaskFacts(p);
      var grp := if tasks[p].group.Some? then groups[tasks[p].group.value] else Group(0, 0, seq(4 * nodes, i => 0), 0);
      var row, total, figures;
      row, total, figures, best := PlaceNodes(nodes, tasks[p], grp, online, cpuWeight, localFaults);
      if tasks[p].group.Some? {
        var g := tasks[p].group.value;
        Followed(nodes, tasks, groups, p, Task(row, total, Some(g)), g, figures);
        groups := groups[g := figures];
      } else {
        Outside(nodes, tasks, groups, p, Task(row, total, None));
      }
      tasks := tasks[p := tasks[p].(faults := row, totalFaults := total)];
    }

    /** task_numa_free. */
    method TaskNumaFree(p: nat)
      requires Valid() && p in tasks
      modifies `tasks, `groups
      ensures Valid() && p in tasks && tasks[p].faults == [] && tasks[p].group.None?
      ensures forall q :: q in old(tasks) && q != p ==> q in tasks && tasks[q] == old(tasks)[q]
      ensures match old(tasks)[p].group
              case None => groups == old(groups)
              case Some(g) =>
                g in old(groups) &&
                if old(groups)[g].nrTasks == 1 then groups == old(groups) - {g}
                else g in groups && groups[g].nrTasks == old(groups)[g].nrTasks - 1 && groups == old(groups)[g := groups[g]]
    {
      if tasks[p].group.Some? {
        Leave(p, []);
      } else {
        Outside(nodes, tasks, groups, p, tasks[p].(faults := []));
        tasks := tasks[p := tasks[p].(faults := [])];
      }
    }
  }

  /** Nothing that groups keep changes with a task outside them, or one whose kept figures stay. */
  lemma Unchanged(nodes: nat, tasks: map<nat, Task>, groups: map<nat, Group>, p: nat, t: Task)
    requires Shaped(nodes, tasks, groups) && Conserved(nodes, tasks, groups)
    requires |t.faults| == 8 * nodes
    requires if p in tasks then
               t.group == tasks[p].group && t.totalFaults == tasks[p].totalFaults && |tasks[p].faults| == |t.faults|
               && forall i :: 0 <= i < 4 * nodes ==> t.faults[i] == tasks[p].faults[i]
             else t.group.None?
    ensures Shaped(nodes, tasks[p := t], groups) && Conserved(nodes, tasks[p := t], groups)
  {
    forall g: nat, f: Figure | g in groups && (f.Faults? ==> f.i < 4 * nodes)
      ensures SumOf(tasks[p := t], g, f) == SumOf(tasks, g, f)
    {
      SumChanges(tasks, p, t, g, f);
    }
  }

  /** A change of one task that its group follows, figure by figure. */
  lemma Followed(nodes: nat, tasks: map<nat, Task>, groups: map<nat, Group>, p: nat, t: Task, g: nat, group: Group)
    requires Shaped(nodes, tasks, groups) && Conserved(nodes, tasks, groups)
    requires p in tasks && |tasks[p].faults| == 8 * nodes && (|t.faults| == 8 * nodes || (t.faults == [] && t.group.None?))
    requires |group.faults| == 4 * nodes && group.refcount == group.nrTasks
    requires g in groups && (tasks[p].group == Some(g) || tasks[p].group == None) && (t.group == Some(g) || t.group == None)
    requires forall f: Figure :: (f.Faults? ==> f.i < 4 * nodes) ==>
               OfGroup(group, f) == OfGroup(groups[g], f) - Part(tasks[p], g, f) + Part(t, g, f)
    ensures Shaped(nodes, tasks[p := t], groups[g := group]) && Conserved(nodes, tasks[p := t], groups[g := group])
  {
    forall h: nat, f: Figure | h in groups && (f.Faults? ==> f.i < 4 * nodes)
      ensures OfGroup(groups[g := group][h], f) == SumOf(tasks[p := t], h, f)
    {
      SumChanges(tasks, p, t, h, f);
      assert OfGroup(groups[h], f) == SumOf(tasks, h, f);
    }
  }

  /** No group keeps anything of a task that has none. */
  lemma Outside(nodes: nat, tasks: map<nat, Task>, groups: map<nat, Group>, p: nat, t: Task)
    requires Shaped(nodes, tasks, groups) && Conserved(nodes, tasks, groups) && p in tasks && tasks[p].group.None?
    requires t.group.None? && (t.faults == [] || |t.faults| == 8 * nodes)
    ensures Shaped(nodes, tasks[p := t], groups) && Conserved(nodes, tasks[p := t], groups)
  {
    forall g: nat, f: Figure | g in groups && (f.Faults? ==> f.i < 4 * nodes)
      ensures SumOf(tasks[p := t], g, f) == SumOf(tasks, g, f)
    {
      SumChanges(tasks, p, t, g, f);
    }
  }

  lemma EmptyGroup(nodes: nat, tasks: map<nat, Task>, groups: map<nat, Group>, g: nat)
    requires Shaped(nodes, tasks, groups) && Conserved(nodes, tasks, groups) && g !in groups
    ensures var more := groups[g := Group(0, 0, seq(4 * nodes, i => 0), 0)];
            Shaped(nodes, tasks, more) && Conserved(nodes, tasks, more)
  {
    forall f: Figure
      ensures SumOf(tasks, g, f) == 0
    {
      assert Members(tasks, g) == {};
    }
  }

  /** A group without members is nobody's group. */
  lemma FreeGroup(nodes: nat, tasks: map<nat, Task>, groups: map<nat, Group>, g: nat)
    requires Shaped(nodes, tasks, groups) && Conserved(nodes, tasks, groups) && g in groups && groups[g].nrTasks == 0
    ensures Shaped(nodes, tasks, groups - {g}) && Conserved(nodes, tasks, groups - {g})
  {
    forall p | p in tasks
      ensures tasks[p].group != Some(g)
    {
      if tasks[p].group == Some(g) {
        HasMember(nodes, tasks, groups, p);
      }
    }
  }

  lemma HasMember(nodes: nat, tasks: map<nat, Task>, groups: map<nat, Group>, p: nat)
    requires Shaped(nodes, tasks, groups) && Conserved(nodes, tasks, groups) && p in tasks && tasks[p].group.Some?
    ensures tasks[p].group.value in groups && groups[tasks[p].group.value].nrTasks >= 1
  {
    var g := tasks[p].group.value;
    assert OfGroup(groups[g], Count) == SumOf(tasks, g, Count);
    SumAtLeast(Members(tasks, g), Figures(tasks, Count), 1);
    assert p in Members(tasks, g);
  }

  /** nr_tasks is the number of members. */
  lemma CountsMembers(nodes: nat, tasks: map<nat, Task>, groups: map<nat, Group>, g: nat)
    requires Shaped(nodes, tasks, groups) && Conserved(nodes, tasks, groups) && g in groups
    ensures groups[g].nrTasks == groups[g].refcount == |Members(tasks, g)|
  {
    assert OfGroup(groups[g], Count) == SumOf(tasks, g, Count);
    SumOfOnes(Members(tasks, g), Figures(tasks, Count));
  }

  lemma {:induction false} SumOfOnes(s: set<nat>, f: map<nat, int>)
    requires s <= f.Keys && forall p :: p in s ==> f[p] == 1
    ensures Sum(s, f) == |s|
  {
    if s != {} {
      var p :| p in s;
      SumRemove(s, p, f);
      SumOfOnes(s - {p}, f);
    }
  }

  lemma {:induction false} SumPlus(s: set<nat>, f: map<nat, int>, g: map<nat, int>, h: map<nat, int>)
    requires s <= f.Keys && s <= g.Keys && s <= h.Keys && forall p :: p in s ==> h[p] == f[p] + g[p]
    ensures Sum(s, h) == Sum(s, f) + Sum(s, g)
  {
    if s != {} {
      var p :| p in s;
      SumRemove(s, p, f);
      SumRemove(s, p, g);
      SumRemove(s, p, h);
      SumPlus(s - {p}, f, g, h);
    }
  }

  ghost function RowTotals(tasks: map<nat, Task>, n: nat): (m: map<nat, int>)
    ensures m.Keys == tasks.Keys
  {
    map p | p in tasks :: if n <= |tasks[p].faults| then RowTotal(tasks[p].faults, n) else 0
  }

  lemma {:induction false} SumOfRows(nodes: nat, tasks: map<nat, Task>, groups: map<nat, Group>, g: nat, n: nat)
    requires Shaped(nodes, tasks, groups) && Conserved(nodes, tasks, groups) && g in groups && n <= 4 * nodes
    ensures Sum(Members(tasks, g), RowTotals(tasks, n)) == RowTotal(groups[g].faults, n)
  {
    hide Sum;
    var s := Members(tasks, g);
    if n == 0 {
      SumZeros(s, RowTotals(tasks, 0));
    } else {
      SumOfRows(nodes, tasks, groups, g, n - 1);
      SumPlus(s, RowTotals(tasks, n - 1), Figures(tasks, Faults(n - 1)), RowTotals(tasks, n));
      assert OfGroup(groups[g], Faults(n - 1)) == SumOf(tasks, g, Faults(n - 1));
    }
  }

  lemma {:induction false} SumZeros(s: set<nat>, f: map<nat, int>)
    requires s <= f.Keys && forall p :: p in s ==> f[p] == 0
    ensures Sum(s, f) == 0
  {
    if s != {} {
      var p :| p in s;
      SumRemove(s, p, f);
      SumZeros(s - {p}, f);
    }
  }

  /** A group's total is that of its memory faults as well. */
  lemma GroupTotalled(nodes: nat, tasks: map<nat, Task>, groups: map<nat, Group>, g: nat)
    requires Shaped(nodes, tasks, groups) && Conserved(nodes, tasks, groups) && Totalled(nodes, tasks) && g in groups
    ensures |groups[g].faults| == 4 * nodes && groups[g].totalFaults == RowTotal(groups[g].faults, 2 * nodes)
  {
    SumOfRows(nodes, tasks, groups, g, 2 * nodes);
    assert OfGroup(groups[g], TotalFaults) == SumOf(tasks, g, TotalFaults);
    SumAgree(Members(tasks, g), RowTotals(tasks, 2 * nodes), Figures(tasks, TotalFaults));
  }

  /** What a task's CPU faults count for, added up. */
  function SharesOf(cpuWeight: nat, row: seq<int>, localFaults: nat): int {
    if row == [] then 0 else Share(cpuWeight, row[0], localFaults) + SharesOf(cpuWeight, row[1..], localFaults)
  }

  function Added(row: seq<int>): int {
    if row == [] then 0 else row[0] + Added(row[1..])
  }

  lemma ShareIsPart(cpuWeight: nat, faults: nat, localFaults: nat)
    ensures var part := Share(cpuWeight, faults, localFaults) * (localFaults + 1);
            part <= cpuWeight * faults <= part + localFaults
  {
    DivQuotient(cpuWeight * faults, localFaults + 1);
  }

  /**
   * The shares are what the faults are, of all local faults and one, of the
   * CPU weight, but for less than one unit each. Together they do not exceed
   * that weight if the faults do not exceed the local ones.
   */
  lemma {:induction false} SharesAreParts(cpuWeight: nat, row: seq<int>, localFaults: nat)
    requires forall i :: 0 <= i < |row| ==> row[i] >= 0
    ensures var total := SharesOf(cpuWeight, row, localFaults) * (localFaults + 1);
            total <= cpuWeight * Added(row) <= total + |row| * localFaults
    ensures Added(row) <= localFaults ==> SharesOf(cpuWeight, row, localFaults) <= cpuWeight
  {
    hide Share;
    if row != [] {
      var tail := row[1..];
      SharesAreParts(cpuWeight, tail, localFaults);
      ShareIsPart(cpuWeight, row[0], localFaults);
      PartsAdd(cpuWeight, row[0], Added(tail), Share(cpuWeight, row[0], localFaults), SharesOf(cpuWeight, tail, localFaults), localFaults, |tail|);
    }
    if Added(row) <= localFaults && SharesOf(cpuWeight, row, localFaults) > cpuWeight {
      NotMore(cpuWeight, Added(row), SharesOf(cpuWeight, row, localFaults), localFaults);
    }
  }

  lemma PartsAdd(w: nat, a: int, b: int, s: int, t: int, l: nat, n: nat)
    requires s * (l + 1) <= w * a <= s * (l + 1) + l && t * (l + 1) <= w * b <= t * (l + 1) + n * l
    ensures (s + t) * (l + 1) <= w * (a + b) <= (s + t) * (l + 1) + (n + 1) * l
  {
  }

  lemma NotMore(w: nat, a: int, s: int, l: nat)
    requires s * (l + 1) <= w * a && a <= l
    ensures s <= w
  {
    if s > w {
      MulMonotone(w + 1, s, l + 1, l + 1);
      if a >= 0 {
        MulMonotone(w, w, a, l);
      }
    }
  }
}
